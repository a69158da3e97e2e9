/** What the lease protocol's status reports, commands and exits tell: in every run, a status says what its author had
    been told and done, and a command comes only after every check its program asks for. */
module LeaseReports {
  import opened Wrappers
  import opened WorkloadLease
  import opened LeaseInvariant
  import opened LeaseSafety
  import opened LeaseTales

  // ---- the invariant

  ghost predicate Tales(c: Config, s: System) { forall q :: q in s.procs ==> Tale(c, s.procs[q]) }

  ghost predicate Sweeps(s: System) { forall q :: q in s.procs && SweptAt(s.procs[q]) ==> s.owned == {} }

  ghost predicate Items(c: Config, s: System) {
    forall k :: 0 <= k < |s.published| ==> Truthful(c, s.published[k]) && Swept(s.published[k])
  }

  ghost predicate Commands(c: Config, s: System) {
    forall k :: 0 <= k < |s.launches| ==>
      var l := s.launches[k];
      && Checked(c, l) && l.pid < s.freshPid
      && (l.kind == RunnerChild ==> l.scene.owned == {})
  }

  predicate Within(l: Launched, launches: seq<Launched>) {
    l.scene.role.Dispatcher? ==> RunnersOf(launches, l.pid) <= Limit(l.scene.role)
  }

  ghost predicate Counts(s: System) {
    && (forall q :: q in s.procs ==> Counted(s.procs[q], RunnersOf(s.launches, q)))
    && (forall k :: 0 <= k < |s.launches| ==> Within(s.launches[k], s.launches))
    && (forall k :: 0 <= k < |s.launches| && s.launches[k].pid in s.procs ==>
          s.launches[k].scene.role == s.procs[s.launches[k].pid].role)
  }

  /** From the launch of a runner until its finish stamp. */
  predicate Running(point: Point) { point.AtRunner? && (point.runner.RunnerWait? || point.runner.FinishTime?) }

  /** Its author's last command ended well, and the protected workload was healthy after its last runner. */
  predicate Well(l: Launched) { l.scene.answers.ends.code == Some(0) && l.scene.answers.ends.sound }

  /** A finish stamp separates two runners of a dispatcher, and the earlier command ended well. */
  ghost predicate Apart(a: Launched, b: Launched) {
    a.kind == b.kind == RunnerChild && a.pid == b.pid && a.scene.role.Dispatcher? ==> a.finishes < b.finishes && Well(b)
  }

  ghost predicate Stamped(s: System, l: Launched) {
    && l.finishes <= |s.finishes|
    && (l.kind == RunnerChild && l.scene.role.Dispatcher? && l.pid in s.procs && !Running(s.procs[l.pid].point) ==> l.finishes < |s.finishes|)
  }

  ghost predicate Separated(s: System) {
    && (forall k :: 0 <= k < |s.launches| ==> Stamped(s, s.launches[k]))
    && (forall j, k :: 0 <= j < k < |s.launches| ==> Apart(s.launches[j], s.launches[k]))
  }

  predicate Meant(c: Config, e: Exited) { if e.code == 0 then Justified(c, e) else e.code == 75 && Refused(e) }

  ghost predicate Exits(c: Config, s: System) {
    forall k :: 0 <= k < |s.exits| ==> Meant(c, s.exits[k])
  }

  /** Every command but the dispatcher's stop is handed the lease. */
  predicate Carries(l: Launched) { l.kind == StopChild ==> !l.scene.role.Dispatcher? }

  ghost predicate Kept(s: System, l: Launched) {
    && l.child < s.freshPid
    && (l.child in s.procs ==> s.procs[l.child].role == Child(l.kind) && (Carries(l) ==> s.procs[l.child].lease.Some?))
  }

  ghost predicate Leased(s: System) { forall k :: 0 <= k < |s.launches| ==> Kept(s, s.launches[k]) }

  ghost predicate AllTold(c: Config, s: System) {
    Tales(c, s) && Sweeps(s) && Items(c, s) && Commands(c, s) && Counts(s) && Separated(s) && Exits(c, s) && Leased(s)
  }

  lemma RunnersAppend(launches: seq<Launched>, l: Launched, pid: Pid)
    ensures RunnersOf(launches + [l], pid) ==
      RunnersOf(launches, pid) + if l.pid == pid && l.kind == RunnerChild then 1 else 0
  {
    assert (launches + [l])[..|launches|] == launches;
  }

  lemma {:induction false} NoneLaunched(launches: seq<Launched>, pid: Pid)
    requires forall k :: 0 <= k < |launches| ==> launches[k].pid != pid
    ensures RunnersOf(launches, pid) == 0
  {
    if launches != [] { NoneLaunched(launches[..|launches| - 1], pid); }
  }

  /** What a step leaves behind. */
  lemma CommitScene(s: System, pid: Pid, m: Move, i: Input)
    requires pid in s.procs && pid != s.freshPid
    ensures var p, t := s.procs[pid], Commit(s, pid, s.procs[pid], m, i);
      && t.owned == s.owned && s.freshPid <= t.freshPid
      && (pid in t.procs <==> !m.effect.Exit?)
      && (forall q :: q in t.procs ==> q in s.procs || q == s.freshPid)
      && (pid in t.procs ==> t.procs[pid] == Moved(s, p, m, i).(lease := t.procs[pid].lease))
      && (if m.effect.Publish?
          then |t.published| == |s.published| + 1 && t.published[..|s.published|] == s.published
            && var item := t.published[|s.published|]; item.state == m.effect.state && item.scene == SceneOf(s, p)
          else t.published == s.published)
      && (if m.effect.Fork?
          then t.launches == s.launches + [Launched(pid, s.freshPid, m.effect.kind, s.wall, p.trail.taken, |s.finishes|, SceneOf(s, p))]
          else t.launches == s.launches)
      && t.exits == s.exits + (if m.effect.Exit? then [Exited(pid, p.role, m.effect.code, s.wall, Heard(s, p, i), s.status)] else [])
      && |t.finishes| == |s.finishes| + (if m.effect.WriteFinish? then 1 else 0)
  {
    hide Trailed, SceneOf, GroundsOf, Heard;
  }

  lemma TaleIgnoresLease(c: Config, p: Proc, lease: Option<Lease>)
    ensures Tale(c, p) ==> Tale(c, p.(lease := lease))
  {}

  lemma SweepIgnoresLease(p: Proc, lease: Option<Lease>)
    ensures SweptAt(p.(lease := lease)) == SweptAt(p)
    ensures forall n: nat :: Counted(p.(lease := lease), n) == Counted(p, n)
  {}

  lemma IdlingTale(c: Config, p: Proc)
    requires Idling(p)
    ensures Tale(c, p) && !SweptAt(p) && forall n: nat :: Counted(p, n)
  {}

  lemma LocalTale(c: Config, s: System, p: Proc, i: Input)
    requires Tale(c, p) && FitsRole(p.role, p.point) && p.trail.taken <= p.at <= s.wall && !Local(c, s, p, i).effect.Exit?
    ensures Tale(c, Moved(s, p, Local(c, s, p, i), i))
  {
    hide Told, About, FitsRole, Endings, Turned, Heeded, Aged, Sayings, Owes;
    LocalTold(c, s, p, i);
    LocalHeeded(c, s, p, i);
    LocalAged(c, s, p, i);
    LocalSayings(c, s, p, i);
    LocalEndings(c, s, p, i);
    if p.role.Supervisor? {
      LocalAbout(c, s, p, i);
      LocalTurned(c, s, p, i);
      LocalOwes(c, s, p, i);
    }
  }

  /** Everything about the acting process that the steps below need. */
  lemma Actor(c: Config, s: System, pid: Pid)
    requires Inv(c, s) && pid in s.procs
    ensures var p := s.procs[pid]; pid < s.freshPid && FitsRole(p.role, p.point) && p.trail.taken <= p.at <= s.wall
  {
    assert ProcShape(s, pid) && Note(c, s, s.procs[pid]);
  }

  lemma Others(c: Config, s: System, pid: Pid, i: Input, q: Pid)
    requires Inv(c, s) && pid in s.procs && q != pid
    ensures var t := Commit(s, pid, s.procs[pid], Local(c, s, s.procs[pid], i), i);
      q in t.procs ==> (if q in s.procs then t.procs[q] == s.procs[q] else Idling(t.procs[q]))
  {
    hide Local, Seen, Heard, Notes, Histories;
    assert ProcShape(s, pid) && (q in s.procs ==> ProcShape(s, q));
    LocalIsLegal(c, s, s.procs[pid], i);
    CommitFrame(s, pid, Local(c, s, s.procs[pid], i), i);
  }

  lemma StepKeepsTales(c: Config, s: System, pid: Pid, i: Input)
    requires Inv(c, s) && Tales(c, s) && Sweeps(s) && pid in s.procs
    ensures var t := Commit(s, pid, s.procs[pid], Local(c, s, s.procs[pid], i), i); Tales(c, t) && Sweeps(t)
  {
    hide Inv, Local, Tale, SweptAt, FitsRole, Moved, Idling;
    var p, m := s.procs[pid], Local(c, s, s.procs[pid], i);
    var t := Commit(s, pid, p, m, i);
    Actor(c, s, pid);
    CommitScene(s, pid, m, i);
    if pid in t.procs {
      LocalTale(c, s, p, i);
      TaleIgnoresLease(c, Moved(s, p, m, i), t.procs[pid].lease);
      SweepIgnoresLease(Moved(s, p, m, i), t.procs[pid].lease);
      if SweptAt(Moved(s, p, m, i)) { StopsBeforeSaying(c, s, p, i); }
    }
    forall q | q in t.procs ensures Tale(c, t.procs[q]) && (SweptAt(t.procs[q]) ==> t.owned == {}) {
      if q != pid {
        Others(c, s, pid, i, q);
        if q !in s.procs { IdlingTale(c, t.procs[q]); }
      }
    }
  }

  lemma StepKeepsItems(c: Config, s: System, pid: Pid, i: Input)
    requires Inv(c, s) && Tales(c, s) && Sweeps(s) && Items(c, s) && pid in s.procs
    ensures Items(c, Commit(s, pid, s.procs[pid], Local(c, s, s.procs[pid], i), i))
  {
    hide Local, Tale, SweptAt, FitsRole, Truthful, Swept, SceneOf, TellsOfPoint, Commit, Locks, Family, Notes, Histories;
    hide LeaseInvariant.Cleared;
    var p, m := s.procs[pid], Local(c, s, s.procs[pid], i);
    Actor(c, s, pid);
    CommitScene(s, pid, m, i);
    if m.effect.Publish? {
      var t := Commit(s, pid, p, m, i);
      var item := t.published[|s.published|];
      PublishingPoints(c, s, p, i, m.effect.state);
      PublishIsTruthful(c, s, p, m.effect.state, item);
      PublishIsSwept(s, p, m.effect.state, item);
      assert forall k :: 0 <= k < |s.published| ==> t.published[k] == t.published[..|s.published|][k];
    }
  }

  lemma StepKeepsCommands(c: Config, s: System, pid: Pid, i: Input)
    requires Inv(c, s) && Tales(c, s) && Commands(c, s) && pid in s.procs
    ensures Commands(c, Commit(s, pid, s.procs[pid], Local(c, s, s.procs[pid], i), i))
  {
    hide Local, Tale, FitsRole, Checked, SceneOf, Commit, Locks, Family, Notes, Histories;
    var p, m := s.procs[pid], Local(c, s, s.procs[pid], i);
    Actor(c, s, pid);
    CommitScene(s, pid, m, i);
    if m.effect.Fork? {
      var l := Launched(pid, s.freshPid, m.effect.kind, s.wall, p.trail.taken, |s.finishes|, SceneOf(s, p));
      LaunchingPoints(c, s, p, i, m.effect.kind, m.effect.inherit);
      LaunchIsChecked(c, s, p, l);
      SceneIsHere(s, p);
      assert l.kind == RunnerChild ==> LeaseInvariant.Cleared(p.point);
    }
  }

  lemma HasBeenTold(c: Config, p: Proc)
    requires Tale(c, p)
    ensures Told(p)
  {}

  lemma StepKeepsExits(c: Config, s: System, pid: Pid, i: Input)
    requires Inv(c, s) && Tales(c, s) && Exits(c, s) && pid in s.procs
    ensures Exits(c, Commit(s, pid, s.procs[pid], Local(c, s, s.procs[pid], i), i))
  {
    hide Local, Tale, FitsRole, Justified, Refused, Told, SceneOf, Commit, Locks, Family, Notes, Histories, Heard;
    var p, m := s.procs[pid], Local(c, s, s.procs[pid], i);
    Actor(c, s, pid);
    CommitScene(s, pid, m, i);
    if m.effect.Exit? {
      RefusingPoints(c, s, p, i, m.effect.code);
      if m.effect.code == 0 {
        LeavingPoints(c, s, p, i);
        ExitIsJustified(c, s, p, i, Exited(pid, p.role, 0, s.wall, Heard(s, p, i), s.status));
      } else {
        HasBeenTold(c, p);
        RefusalIsJustified(s, p, i, Exited(pid, p.role, 75, s.wall, Heard(s, p, i), s.status));
      }
    }
  }

  lemma ChildStays(c: Config, s: System, pid: Pid, i: Input)
    requires pid in s.procs && s.procs[pid].role.Child? && s.procs[pid].point.Working?
    ensures var t := Commit(s, pid, s.procs[pid], Local(c, s, s.procs[pid], i), i);
      pid in t.procs && t.procs[pid].role == s.procs[pid].role && t.procs[pid].lease == s.procs[pid].lease
  {}

  lemma HandsOver(c: Config, s: System, p: Proc, i: Input)
    requires FitsRole(p.role, p.point) && Local(c, s, p, i).effect.Fork?
    ensures var e := Local(c, s, p, i).effect; Holding(p.point) && (e.inherit || (e.kind == StopChild && p.role.Dispatcher?))
  {}

  lemma ForkHandsOver(c: Config, s: System, pid: Pid, i: Input, l: Launched)
    requires Inv(c, s) && pid in s.procs && pid != s.freshPid && Local(c, s, s.procs[pid], i).effect.Fork?
    requires l.child == s.freshPid && l.scene.role == s.procs[pid].role && l.kind == Local(c, s, s.procs[pid], i).effect.kind
    ensures Kept(Commit(s, pid, s.procs[pid], Local(c, s, s.procs[pid], i), i), l)
  {
    hide Notes, Histories, Heard, Seen, SceneOf, Local, Moved, GroundsOf;
    assert ProcShape(s, pid);
    HandsOver(c, s, s.procs[pid], i);
  }

  lemma StepKeepsLeased(c: Config, s: System, pid: Pid, i: Input)
    requires Inv(c, s) && Leased(s) && pid in s.procs
    ensures Leased(Commit(s, pid, s.procs[pid], Local(c, s, s.procs[pid], i), i))
  {
    hide Inv, Local, SceneOf, Commit, Heard;
    var p, m := s.procs[pid], Local(c, s, s.procs[pid], i);
    var t := Commit(s, pid, p, m, i);
    Actor(c, s, pid);
    CommitScene(s, pid, m, i);
    SceneIsHere(s, p);
    if m.effect.Fork? { ForkHandsOver(c, s, pid, i, t.launches[|s.launches|]); }
    forall k | 0 <= k < |t.launches| ensures Kept(t, t.launches[k]) {
      if k < |s.launches| {
        var l := s.launches[k];
        assert t.launches[k] == l && Kept(s, l);
        if l.child == pid { ChildStays(c, s, pid, i); } else { Others(c, s, pid, i, l.child); }
      }
    }
  }

  lemma SceneIsHere(s: System, p: Proc)
    ensures SceneOf(s, p).owned == s.owned && SceneOf(s, p).role == p.role
  {}

  lemma StepKeepsCounts(c: Config, s: System, pid: Pid, i: Input)
    requires Inv(c, s) && Commands(c, s) && Counts(s) && pid in s.procs
    ensures Counts(Commit(s, pid, s.procs[pid], Local(c, s, s.procs[pid], i), i))
  {
    hide Inv, Local, FitsRole, Checked, SceneOf, Commit, RunnersOf, Limit, Counted;
    var p, m := s.procs[pid], Local(c, s, s.procs[pid], i);
    var t := Commit(s, pid, p, m, i);
    Actor(c, s, pid);
    CommitScene(s, pid, m, i);
    SceneIsHere(s, p);
    assert pid in t.procs ==> t.procs[pid].role == p.role;
    NoExitWithFork(m);
    if m.effect.Fork? {
      LaunchingPoints(c, s, p, i, m.effect.kind, m.effect.inherit);
      forall q { RunnersAppend(s.launches, t.launches[|s.launches|], q); }
      LocalCounts(c, s, p, i, RunnersOf(s.launches, pid));
    } else if pid in t.procs {
      LocalCounts(c, s, p, i, RunnersOf(s.launches, pid));
    }
    if pid in t.procs { SweepIgnoresLease(Moved(s, p, m, i), t.procs[pid].lease); }
    forall q | q in t.procs ensures Counted(t.procs[q], RunnersOf(t.launches, q)) {
      if q != pid {
        Others(c, s, pid, i, q);
        if q !in s.procs { IdlingTale(c, t.procs[q]); }
      }
    }
    forall k | 0 <= k < |t.launches|
      ensures Within(t.launches[k], t.launches)
      ensures t.launches[k].pid in t.procs ==> t.launches[k].scene.role == t.procs[t.launches[k].pid].role
    {
      var l := t.launches[k];
      if k < |s.launches| {
        assert l == s.launches[k] && Within(l, s.launches) && l.pid < s.freshPid;
        if l.pid != pid { Others(c, s, pid, i, l.pid); }
      }
    }
  }

  /** A dispatcher that has waited for its runner stamps the finish before anything else. */
  lemma RunnersAreStamped(c: Config, s: System, p: Proc, i: Input)
    requires FitsRole(p.role, p.point) && p.role.Dispatcher?
    ensures var m := Local(c, s, p, i);
      && (Running(p.point) && !Running(m.point) ==> m.effect.WriteFinish? || m.effect.Exit?)
      && (!Running(p.point) && Running(m.point) ==> m.effect.Fork? && m.effect.kind == RunnerChild)
      && (m.effect.Fork? && m.effect.kind == RunnerChild ==> p.point == AtRunner(RunnerSpawn) && Running(m.point))
  {}

  lemma {:induction false} LaunchIsCounted(launches: seq<Launched>, k: nat)
    requires k < |launches| && launches[k].kind == RunnerChild
    ensures RunnersOf(launches, launches[k].pid) > 0
  {
    if k < |launches| - 1 { LaunchIsCounted(launches[..|launches| - 1], k); }
  }

  lemma LaunchIsApart(c: Config, s: System, p: Proc, pid: Pid, l: Launched)
    requires Tale(c, p) && Counts(s) && Separated(s) && Commands(c, s) && pid in s.procs && s.procs[pid] == p
    requires p.role.Dispatcher? && p.point == AtRunner(RunnerSpawn)
    requires l.pid == pid && l.finishes == |s.finishes| && l.scene == SceneOf(s, p) && l.kind == RunnerChild
    ensures forall j :: 0 <= j < |s.launches| ==> Apart(s.launches[j], l)
  {
    hide RunnersOf, Within;
    forall j | 0 <= j < |s.launches| && s.launches[j].pid == pid && s.launches[j].kind == RunnerChild ensures Apart(s.launches[j], l) {
      var k := s.launches[j];
      assert Checked(c, k) && Stamped(s, k) && k.scene.role == p.role;
      LaunchIsCounted(s.launches, j);
      assert Counted(p, RunnersOf(s.launches, pid)) && p.mem.activations > 0;
    }
  }

  lemma StepKeepsSeparated(c: Config, s: System, pid: Pid, i: Input)
    requires Inv(c, s) && Tales(c, s) && Commands(c, s) && Counts(s) && Separated(s) && pid in s.procs
    ensures Separated(Commit(s, pid, s.procs[pid], Local(c, s, s.procs[pid], i), i))
  {
    hide Inv, Local, FitsRole, Checked, SceneOf, Commit, RunnersOf, Counted, Within, Apart, Tale;
    var p, m := s.procs[pid], Local(c, s, s.procs[pid], i);
    var t := Commit(s, pid, p, m, i);
    Actor(c, s, pid);
    CommitScene(s, pid, m, i);
    SceneIsHere(s, p);
    if p.role.Dispatcher? { RunnersAreStamped(c, s, p, i); }
    if m.effect.Fork? { LaunchingPoints(c, s, p, i, m.effect.kind, m.effect.inherit); }
    assert pid in t.procs ==> t.procs[pid].point == m.point;
    forall k | 0 <= k < |t.launches| ensures Stamped(t, t.launches[k]) {
      var l := t.launches[k];
      if k < |s.launches| {
        assert l == s.launches[k] && Stamped(s, l) && l.pid < s.freshPid;
        if l.pid != pid { Others(c, s, pid, i, l.pid); } else { assert l.scene.role == p.role; }
      }
    }
    if m.effect.Fork? {
      var l := t.launches[|s.launches|];
      if l.kind != RunnerChild {
        StopsAreApart(s.launches, l);
      } else if p.role.Dispatcher? {
        LaunchIsApart(c, s, p, pid, l);
      } else {
        ApartFromOthers(c, s, pid, l);
      }
    }
  }

  lemma StopsAreApart(launches: seq<Launched>, l: Launched)
    requires l.kind != RunnerChild
    ensures forall j :: 0 <= j < |launches| ==> Apart(launches[j], l)
  {}

  lemma ApartFromOthers(c: Config, s: System, pid: Pid, l: Launched)
    requires Counts(s) && pid in s.procs && !s.procs[pid].role.Dispatcher? && l.pid == pid
    ensures forall j :: 0 <= j < |s.launches| ==> Apart(s.launches[j], l)
  {}

  lemma NoExitWithFork(m: Move)
    ensures m.effect.Fork? ==> !m.effect.Exit?
  {}

  // ---- every other action, and every run

  /** Statuses, commands and their number, with nothing new told and nothing launched. */
  lemma HistoryFrame(c: Config, s: System, t: System)
    requires Items(c, s) && Commands(c, s) && Counts(s) && Separated(s) && Exits(c, s) && Leased(s)
    requires t.exits == s.exits && forall q :: q in t.procs && q in s.procs ==> t.procs[q].lease == s.procs[q].lease
    requires t.finishes == s.finishes && forall q :: q in t.procs && q in s.procs ==> t.procs[q].point == s.procs[q].point
    requires t.published == s.published && t.launches == s.launches && s.freshPid <= t.freshPid
    requires forall q :: q in t.procs ==> Counted(t.procs[q], RunnersOf(t.launches, q))
    requires forall q :: q in t.procs ==> if q in s.procs then t.procs[q].role == s.procs[q].role else q >= s.freshPid
    ensures Items(c, t) && Commands(c, t) && Counts(t) && Separated(t) && Exits(c, t) && Leased(t)
  {
    hide Truthful, Swept, Checked, Counted, Within, RunnersOf, Apart, Justified, Refused;
    forall k | 0 <= k < |t.launches| ensures Stamped(t, t.launches[k]) {
      assert Stamped(s, s.launches[k]) && s.launches[k].pid < s.freshPid;
    }
    forall k | 0 <= k < |t.launches| ensures Kept(t, t.launches[k]) { assert Kept(s, s.launches[k]); }
    forall k | 0 <= k < |t.launches| && t.launches[k].pid in t.procs
      ensures t.launches[k].scene.role == t.procs[t.launches[k].pid].role
    {
      assert s.launches[k].pid < s.freshPid;
    }
  }

  lemma DeathKeepsTold(c: Config, s: System, pid: Pid)
    requires AllTold(c, s)
    ensures AllTold(c, Without(s, pid))
  {
    hide Tale, SweptAt, Counted, Items, Commands, RunnersOf, Separated, Exits, Leased;
    HistoryFrame(c, s, Without(s, pid));
  }

  lemma BirthKeepsTold(c: Config, s: System, role: Role)
    requires AllTold(c, s) && !role.Child? && s.freshPid !in s.procs
    ensures AllTold(c, Next(c, s, Begin(role)))
  {
    hide Tale, SweptAt, Counted, Items, RunnersOf, Separated, Exits, Leased;
    var t := Next(c, s, Begin(role));
    NewbornTale(c, role, s.wall);
    NoneLaunched(s.launches, s.freshPid);
    HistoryFrame(c, s, t);
  }

  lemma NewbornTale(c: Config, role: Role, wall: nat)
    requires !role.Child?
    ensures var p := Newborn(role, Entry(role), None, wall); Tale(c, p) && !SweptAt(p) && Counted(p, 0)
  {}

  lemma SignalKeepsTold(c: Config, s: System, pid: Pid)
    requires AllTold(c, s) && pid in s.procs
    ensures AllTold(c, Next(c, s, Signal(pid)))
  {
    hide Tale, SweptAt, Counted, Items, Commands, RunnersOf, Separated, Exits, Leased;
    TaleIgnoresSignals(c, s.procs[pid]);
    HistoryFrame(c, s, Next(c, s, Signal(pid)));
  }

  lemma TaleIgnoresSignals(c: Config, p: Proc)
    ensures Tale(c, p.(stopping := true)) == Tale(c, p) && SweptAt(p.(stopping := true)) == SweptAt(p)
    ensures forall n: nat :: Counted(p.(stopping := true), n) == Counted(p, n)
  {}

  /** The lease keeps containers from appearing between the sweep and the status. */
  lemma StarterSpoilsNothing(s: System, starter: Pid, q: Pid)
    requires Shape(s) && starter in s.procs && s.procs[starter].role == Child(StartChild) && q in s.procs
    ensures !SweptAt(s.procs[q])
  {
    assert ProcShape(s, starter) && ProcShape(s, q) && LeasedChild(s, starter);
    assert LeasedParent(s, q) ==> Awaits(s.procs[q].point) == Awaited(starter, StartChild);
  }

  lemma WorldKeepsTold(c: Config, s: System, t: System)
    requires AllTold(c, s) && t == s.(owned := t.owned, paused := t.paused, wall := t.wall, mono := t.mono)
    requires Sweeps(t)
    ensures AllTold(c, t)
  {
    hide Tale, SweptAt, Counted, Items, Commands, RunnersOf, Separated, Exits, Leased;
    HistoryFrame(c, s, t);
  }

  lemma NextKeepsTold(c: Config, s: System, a: Action)
    requires Inv(c, s) && AllTold(c, s)
    ensures AllTold(c, Next(c, s, a))
  {
    hide Inv, Tales, Items, Commands, Counts, Separated, Exits, Leased, Local, SweptAt, Commit;
    match a
    case Step(pid, i) =>
      if pid in s.procs {
        StepKeepsTales(c, s, pid, i);
        StepKeepsItems(c, s, pid, i);
        StepKeepsCommands(c, s, pid, i);
        StepKeepsCounts(c, s, pid, i);
        StepKeepsSeparated(c, s, pid, i);
        StepKeepsExits(c, s, pid, i);
        StepKeepsLeased(c, s, pid, i);
      }
    case Begin(role) =>
      if !role.Child? {
        FreshIsNew(c, s);
        BirthKeepsTold(c, s, role);
      }
    case Die(pid) => if pid in s.procs { DeathKeepsTold(c, s, pid); }
    case Signal(pid) => if pid in s.procs { SignalKeepsTold(c, s, pid); }
    case Appear(starter, _) =>
      if starter in s.procs && s.procs[starter].role == Child(StartChild) {
        HasShape(c, s);
        forall q | q in s.procs ensures !SweptAt(s.procs[q]) { StarterSpoilsNothing(s, starter, q); }
        WorldKeepsTold(c, s, Next(c, s, a));
      }
    case _ => WorldKeepsTold(c, s, Next(c, s, a));
  }

  lemma HasShape(c: Config, s: System)
    requires Inv(c, s)
    ensures Shape(s)
  {}

  lemma FreshIsNew(c: Config, s: System)
    requires Inv(c, s)
    ensures s.freshPid !in s.procs
  {
    assert s.freshPid in s.procs ==> ProcShape(s, s.freshPid);
  }

  /** In every run, everything published or launched was told, swept, checked and counted. */
  lemma {:induction false} ExecuteKeepsTold(c: Config, actions: seq<Action>)
    ensures AllTold(c, Execute(c, actions))
  {
    hide Next;
    if actions != [] {
      var before := actions[..|actions| - 1];
      ExecuteKeepsInv(c, before);
      ExecuteKeepsTold(c, before);
      NextKeepsTold(c, Execute(c, before), actions[|actions| - 1]);
    }
  }

  // ---- the guarantees

  /** A supervisor that is not dry-running says that pressure, foreign containers, a runner, a manual pause or pending
      CI keeps the workload off only when no optional container is there. */
  lemma StatusIsSwept(c: Config, actions: seq<Action>, k: nat)
    requires k < |Execute(c, actions).published|
    ensures var item := Execute(c, actions).published[k];
      && item.scene.role.Supervisor? && !item.scene.role.dryRun
      && item.state in {MemoryPressure, OtherContainersActive, RunnerActive, ManualPause, CiPending}
      ==> item.scene.owned == {}
  {
    ExecuteKeepsTold(c, actions);
    assert Swept(Execute(c, actions).published[k]);
  }

  /** Every status says what its author's tick was told. */
  lemma StatusIsTruthful(c: Config, actions: seq<Action>, k: nat)
    requires k < |Execute(c, actions).published|
    ensures Truthful(c, Execute(c, actions).published[k])
  {
    ExecuteKeepsTold(c, actions);
  }

  /** Every runner and start command was issued after all its program's checks, the protected workload found healthy
      in the same lease section, and a runner with no optional container there; every stop command was announced and
      has a reason. */
  lemma CommandsAreChecked(c: Config, actions: seq<Action>, k: nat)
    requires k < |Execute(c, actions).launches|
    ensures var l := Execute(c, actions).launches[k]; Checked(c, l) && (l.kind == RunnerChild ==> l.scene.owned == {})
  {
    ExecuteKeepsTold(c, actions);
    assert Commands(c, Execute(c, actions));
  }

  /** A dispatcher launches at most as many runners as it was told to, and none when it only probes. */
  lemma DispatcherIsBounded(c: Config, actions: seq<Action>, k: nat)
    requires k < |Execute(c, actions).launches| && Execute(c, actions).launches[k].scene.role.Dispatcher?
    ensures var s := Execute(c, actions); var role := s.launches[k].scene.role;
      !role.probeOnly && RunnersOf(s.launches, s.launches[k].pid) <= role.limit
  {
    ExecuteKeepsTold(c, actions);
    assert Checked(c, Execute(c, actions).launches[k]) && Within(Execute(c, actions).launches[k], Execute(c, actions).launches);
  }

  /** Between two runners of one dispatcher there is a finish stamp, and the later one comes only after a command that
      ended with 0 and a health check after the earlier runner. */
  lemma RunnersAreSeparated(c: Config, actions: seq<Action>, j: nat, k: nat)
    requires j < k < |Execute(c, actions).launches|
    requires var s := Execute(c, actions);
      && s.launches[j].pid == s.launches[k].pid && s.launches[j].scene.role.Dispatcher?
      && s.launches[j].kind == s.launches[k].kind == RunnerChild
    ensures var s := Execute(c, actions);
      && s.launches[j].finishes < s.launches[k].finishes <= |s.finishes|
      && s.launches[k].scene.answers.ends.code == Some(0) && s.launches[k].scene.answers.ends.sound
  {
    ExecuteKeepsTold(c, actions);
    var s := Execute(c, actions);
    assert Apart(s.launches[j], s.launches[k]) && Stamped(s, s.launches[k]);
  }

  /** While a command that was handed the lease is alive, even after its parent died, nobody else is in a lease
      section but its waiting parent. */
  lemma CommandKeepsLease(c: Config, actions: seq<Action>, k: nat)
    requires k < |Execute(c, actions).launches|
    requires var s := Execute(c, actions); Carries(s.launches[k]) && s.launches[k].child in s.procs
    ensures var s := Execute(c, actions); var l := s.launches[k];
      && s.procs[l.child].lease.Some? && s.locking == {s.procs[l.child].lease.value}
      && forall p :: p in s.procs && Holding(s.procs[p].point) ==> Awaits(s.procs[p].point) == Awaited(l.child, l.kind)
  {
    ExecuteKeepsTold(c, actions);
    ExecuteKeepsInv(c, actions);
    var s := Execute(c, actions);
    var l := s.launches[k];
    assert Kept(s, l) && ProcShape(s, l.child) && LeasedChild(s, l.child);
    forall p | p in s.procs && Holding(s.procs[p].point) ensures Awaits(s.procs[p].point) == Awaited(l.child, l.kind) {
      assert ProcShape(s, p) && LeasedParent(s, p);
    }
  }

  /** Whoever ends by itself ends with success or a deferral, and says so truly. */
  lemma ExitsAreJustified(c: Config, actions: seq<Action>, k: nat)
    requires k < |Execute(c, actions).exits|
    ensures var e := Execute(c, actions).exits[k]; if e.code == 0 then Justified(c, e) else e.code == 75 && Refused(e)
  {
    ExecuteKeepsTold(c, actions);
  }

  // ---- the guarantees are not empty

  ghost predicate GateSaidYes(s: System) {
    exists k :: 0 <= k < |s.exits| && s.exits[k].code == 0 && s.exits[k].role == Recoverer(true)
  }

  /** A gate does answer yes. */
  lemma SomeGateSaysYes(c: Config)
    ensures exists actions :: GateSaidYes(Execute(c, actions))
  {
    hide Seen, Heard;
    var s, p := RecoverIsReading(c, true);
    ReachNext(c, s, Step(1, CALM));
    var t := Next(c, s, Step(1, CALM));
    assert t.exits[|s.exits|].code == 0 && t.exits[|s.exits|].role == Recoverer(true);
    assert GateSaidYes(t);
    var actions :| Execute(c, actions) == t;
    assert GateSaidYes(Execute(c, actions));
  }

  const TIGHT := CALM.(normal := false)

  /** One supervisor is alive, next to the containers in `owned`. */
  ghost predicate Sole(c: Config, s: System, next: Pid, owned: set<nat>, point: Point) {
    && Reached(c, s) && s.owned == owned && s.freshPid == next && s.procs.Keys == {2}
    && var p := s.procs[2]; p.role == Supervisor(false, true) && p.point == point && !p.stopping
  }

  predicate StopSaid(s: System, j: nat) {
    && j < |s.published| && s.published[j].state == StoppingOptional && s.published[j].author == 2
    && s.published[j].scene.owned == {7}
  }

  lemma StarterIsUp(c: Config) returns (s: System)
    ensures Reached(c, s) && s.procs.Keys == {0, 1} && s.procs[1].role == Child(StartChild)
    ensures s.owned == {} && s.freshPid == 2
  {
    hide Seen, SceneOf;
    var s0, p0 := TickIsStarting(c);
    ReachNext(c, s0, Step(0, CALM));
    var s1 := Next(c, s0, Step(0, CALM));
    ReachNext(c, s1, Step(0, CALM));
    s := Next(c, s1, Step(0, CALM));
  }

  /** The start command brings container 7 up; then it and its supervisor die. */
  lemma ContainerIsUp(c: Config) returns (s: System)
    ensures Reached(c, s) && s.procs == map[] && s.locking == {} && s.owned == {7} && s.freshPid == 2
  {
    var s0 := StarterIsUp(c);
    ReachNext(c, s0, Appear(1, 7));
    var s1 := Next(c, s0, Appear(1, 7));
    ReachNext(c, s1, Die(0));
    var s2 := Next(c, s1, Die(0));
    ReachNext(c, s2, Die(1));
    s := Next(c, s2, Die(1));
    assert s.procs == map[];
  }

  lemma LookBegins(c: Config) returns (s: System)
    ensures Sole(c, s, 3, {7}, AtTick(Observe))
  {
    hide Seen;
    var s0 := ContainerIsUp(c);
    ReachNext(c, s0, Begin(Supervisor(false, true)));
    var s1 := Next(c, s0, Begin(Supervisor(false, true)));
    ReachNext(c, s1, Step(2, CALM));
    s := Next(c, s1, Step(2, CALM));
  }

  lemma PressureIsSeen(c: Config) returns (s: System)
    ensures Sole(c, s, 3, {7}, AtStop(Say, BackToFinish(MemoryPressure)))
  {
    hide Seen;
    var s0 := LookBegins(c);
    ReachNext(c, s0, Step(2, TIGHT));
    var s1 := Next(c, s0, Step(2, TIGHT));
    ReachNext(c, s1, Step(2, CALM));
    s := Next(c, s1, Step(2, CALM));
  }

  lemma StopIsSaid(c: Config) returns (s: System, j: nat)
    ensures Sole(c, s, 3, {7}, AtStop(Run, BackToFinish(MemoryPressure))) && StopSaid(s, j)
  {
    hide Seen;
    var s0 := PressureIsSeen(c);
    ReachNext(c, s0, Step(2, CALM));
    s := Next(c, s0, Step(2, CALM));
    j := |s0.published|;
  }

  lemma StopRuns(c: Config) returns (s: System, j: nat)
    ensures Sole(c, s, 4, {}, AtStop(Await(3), BackToFinish(MemoryPressure))) && StopSaid(s, j)
  {
    hide Seen;
    var s0;
    s0, j := StopIsForked(c);
    ReachNext(c, s0, Vanish(7));
    var s1 := Next(c, s0, Vanish(7));
    ReachNext(c, s1, Die(3));
    s := Next(c, s1, Die(3));
    assert s.procs.Keys == {2};
  }

  lemma StopIsForked(c: Config) returns (s: System, j: nat)
    ensures Reached(c, s) && s.owned == {7} && s.freshPid == 4 && s.procs.Keys == {2, 3} && StopSaid(s, j)
    ensures var p := s.procs[2];
      && p.role == Supervisor(false, true) && !p.stopping
      && p.point == AtStop(Await(3), BackToFinish(MemoryPressure))
  {
    hide Seen;
    var s0;
    s0, j := StopIsSaid(c);
    ReachNext(c, s0, Step(2, CALM));
    s := Next(c, s0, Step(2, CALM));
  }

  lemma StopIsOver(c: Config) returns (s: System, j: nat)
    ensures Sole(c, s, 4, {}, AtStop(Verify(true), BackToFinish(MemoryPressure))) && StopSaid(s, j)
  {
    hide Seen;
    var s0;
    s0, j := StopRuns(c);
    ReachNext(c, s0, Step(2, CALM));
    s := Next(c, s0, Step(2, CALM));
  }

  lemma StopIsChecked(c: Config) returns (s: System, j: nat)
    ensures Sole(c, s, 4, {}, AtStop(Probe, BackToFinish(MemoryPressure))) && StopSaid(s, j)
  {
    hide Seen;
    var s0;
    s0, j := StopIsOver(c);
    ReachNext(c, s0, Step(2, CALM));
    s := Next(c, s0, Step(2, CALM));
  }

  lemma SweepIsOver(c: Config) returns (s: System, j: nat)
    ensures Sole(c, s, 4, {}, Finish(MemoryPressure)) && StopSaid(s, j)
  {
    hide Seen;
    var s0;
    s0, j := StopIsChecked(c);
    ReachNext(c, s0, Step(2, CALM));
    s := Next(c, s0, Step(2, CALM));
  }

  /** A container was there when the supervisor said that it stops it, and gone when it said why. */
  ghost predicate SweptRun(s: System) {
    exists j, k :: 0 <= j < k < |s.published|
      && s.published[j].state == StoppingOptional && s.published[j].scene.owned == {7}
      && s.published[k].state == MemoryPressure && s.published[k].scene.owned == {}
      && s.published[j].author == s.published[k].author
      && s.published[k].scene.role == Supervisor(false, true)
  }

  /** In some run the optional workload is up under memory pressure, is stopped, and the pressure is then reported. */
  lemma SomeTickSweeps(c: Config)
    ensures exists actions :: SweptRun(Execute(c, actions))
  {
    hide Seen;
    var s, j := SweepIsOver(c);
    ReachNext(c, s, Step(2, CALM));
    var t := Next(c, s, Step(2, CALM));
    assert t.published[j].state == StoppingOptional && t.published[|s.published|].state == MemoryPressure;
    assert SweptRun(t);
    var actions :| Execute(c, actions) == t;
    assert SweptRun(Execute(c, actions));
  }
}
