/** The recovery ladder of a mempool bring-up: wait for readiness, restart mempool when its
    state had been unknown, restart a degraded podman machine and start mempool again. */
module MempoolRecovery {
  import opened Wrappers
  import opened DependencyOrder
  import opened BringUp

  datatype Probe = Ready | Catching | Failing

  /** The pause after the `k`-th failed probe, and all pauses before the `k`-th probe, in seconds. */
  function Pause(k: nat): nat
    requires 1 <= k
  {
    if k == 1 then 1 else if Pause(k - 1) * 2 < 8 then Pause(k - 1) * 2 else 8
  }

  function Pauses(k: nat): nat
    requires 1 <= k
  {
    if k == 1 then 0 else Pauses(k - 1) + Pause(k - 1)
  }

  lemma PausesAreShort()
    ensures Pauses(2) == 1 && Pauses(3) == 3 && Pauses(4) == 7 && Pauses(5) == 15
  {
    assert Pause(2) == 2 && Pause(3) == 4 && Pause(4) == 8;
    assert Pauses(2) == 1 && Pauses(3) == 3 && Pauses(4) == 7;
  }

  predicate IsMachine(config: Config, name: string) { name in config && config[name].manager == PODMAN_MACHINE }

  predicate FirstMachine(config: Config, dependencies: seq<string>, i: nat, name: string) {
    i < |dependencies| && dependencies[i] == name && forall j :: 0 <= j < i ==> !IsMachine(config, dependencies[j])
  }

  /** The first dependency run by a podman machine. */
  function RuntimeService(config: Config, dependencies: seq<string>): (r: Option<string>)
    ensures r.Some? ==> IsMachine(config, r.value) && exists i :: FirstMachine(config, dependencies, i, r.value)
    ensures r.None? ==> forall d :: d in dependencies ==> !IsMachine(config, d)
  {
    if dependencies == [] then None
    else if IsMachine(config, dependencies[0]) then
      assert FirstMachine(config, dependencies, 0, dependencies[0]);
      Some(dependencies[0])
    else
      var rest := RuntimeService(config, dependencies[1..]);
      assert forall i: nat :: rest.Some? && FirstMachine(config, dependencies[1..], i, rest.value) ==>
        FirstMachine(config, dependencies, i + 1, rest.value);
      rest
  }

  /** A bring-up in progress. The outside world is three fixed answers: the outcome of the
      n-th probe, whether the n-th operation fails, and the state of a service when the ladder
      asks for it. `executed` is what really ran, `accumulated` what the report will say ran. */
  class Session {
    const config: Config
    const plan: Planner
    const probeAt: nat -> Probe
    const failsAt: nat -> bool
    const stateOf: States

    var accumulated: seq<Operation>
    var executed: seq<Operation>
    var attempts: nat
    var probes: nat
    var waits: nat
    var extra: nat
    var slept: nat

    constructor (config: Config, plan: Planner, probeAt: nat -> Probe, failsAt: nat -> bool, stateOf: States)
      ensures this.config == config && this.plan == plan && this.probeAt == probeAt && this.failsAt == failsAt
      ensures this.stateOf == stateOf && accumulated == [] && executed == []
      ensures attempts == probes == waits == extra == slept == 0
    {
      this.config, this.plan, this.probeAt, this.failsAt, this.stateOf := config, plan, probeAt, failsAt, stateOf;
      accumulated, executed := [], [];
      attempts, probes, waits, extra, slept := 0, 0, 0, 0, 0;
    }

    /** One of the operations tried from the `from`-th up to the `to`-th failed. */
    ghost predicate Failed(from: nat, to: nat)
    {
      exists k: nat :: from <= k < to && failsAt(k)
    }

    /** The operations before the first one that fails ran. */
    ghost predicate StoppedAt(before: seq<Operation>, after: seq<Operation>, operations: seq<Operation>, from: nat, to: nat)
    {
      && from < to <= from + |operations| && failsAt(to - 1) && !Failed(from, to - 1)
      && after == before + operations[..to - 1 - from]
    }

    /** Five probes in a row from the `from`-th on. */
    ghost predicate AllFail(from: nat)
    {
      forall k: nat :: from <= k < from + 5 ==> probeAt(k) == Failing
    }

    /** The podman machine among the dependencies. */
    function Machine(service: string): Option<string> {
      if service in config then RuntimeService(config, config[service].dependsOn) else None
    }

    predicate IsDegraded(machine: Option<string>) { machine.Some? && stateOf(machine.value) == Some(Degraded) }

    /** The second rung helps: there is a degraded machine, both operations can be planned and succeed, and one of
        five more probes does. `a` operations were tried before, `p` probes made. */
    ghost predicate RuntimeHelps(service: string, a: nat, p: nat)
    {
      var machine := Machine(service);
      && IsDegraded(machine)
      && plan(machine.value, Restart).Some? && !failsAt(a)
      && plan(service, Start).Some? && !failsAt(a + 1)
      && !AllFail(p)
    }

    /** Why the second rung gives up, after which operations and how many more probes. */
    ghost predicate RuntimeGivesUp(service: string, error: BringUpError, ran: seq<Operation>, a: nat, p: nat, asked: nat)
    {
      var machine := Machine(service);
      match error
      case NotReady =>
        if IsDegraded(machine) then
          && ran == Planned(true, [Step(machine.value, Restart), Step(service, Start)])
          && plan(machine.value, Restart).Some? && plan(service, Start).Some? && !failsAt(a) && !failsAt(a + 1)
          && AllFail(p) && asked == 5
        else ran == [] && asked == 0 && (machine.Some? ==> stateOf(machine.value).Some?)
      case StateFailed(name) => machine == Some(name) && stateOf(name).None? && ran == [] && asked == 0
      case PlanFailed(name) =>
        && IsDegraded(machine) && asked == 0
        && (if plan(machine.value, Restart).None? then name == machine.value && ran == []
            else (name == service && plan(service, Start).None? && !failsAt(a)
              && ran == [plan(machine.value, Restart).value]))
      case ExecutionFailed =>
        && IsDegraded(machine) && plan(machine.value, Restart).Some? && asked == 0
        && (if failsAt(a) then ran == []
            else plan(service, Start).Some? && failsAt(a + 1) && ran == [plan(machine.value, Restart).value])
      case OrderFailed(_) => false
    }

    /** Mempool is restarted when its state had been unknown. */
    predicate Restarts(service: string, initial: RuntimeState) { service == MEMPOOL && initial == Unknown }

    /** Which answers of the world the whole ladder needs. */
    ghost predicate LadderHelps(service: string, initial: RuntimeState, a: nat, p: nat)
    {
      || !AllFail(p)
      || (if Restarts(service, initial)
          then plan(service, Restart).Some? && !failsAt(a) && (!AllFail(p + 5) || RuntimeHelps(service, a + 1, p + 10))
          else RuntimeHelps(service, a, p + 5))
    }

    /** Runs operations in order and stops at the first one that fails. */
    method Execute(operations: seq<Operation>) returns (ok: bool)
      modifies this`executed, this`attempts
      ensures ok <==> !Failed(old(attempts), old(attempts) + |operations|)
      ensures ok ==> executed == old(executed) + operations && attempts == old(attempts) + |operations|
      ensures !ok ==> StoppedAt(old(executed), executed, operations, old(attempts), attempts)
    {
      for i := 0 to |operations|
        invariant executed == old(executed) + operations[..i]
        invariant attempts == old(attempts) + i && !Failed(old(attempts), attempts)
      {
        var failed := failsAt(attempts);
        attempts := attempts + 1;
        if failed {
          return false;
        }
        executed := executed + [operations[i]];
        assert operations[..i + 1] == operations[..i] + [operations[i]];
      }
      assert operations[..|operations|] == operations;
      return true;
    }

    /** Up to five probes with pauses of 1, 2, 4 and 8 seconds between them. */
    method WaitForReadiness() returns (ready: bool)
      modifies this`probes, this`slept, this`waits
      ensures waits == old(waits) + 1
      ensures old(probes) < probes <= old(probes) + 5
      ensures ready <==> probeAt(probes - 1) != Failing
      ensures ready <==> !AllFail(old(probes))
      ensures forall k :: old(probes) <= k < probes - 1 ==> probeAt(k) == Failing
      ensures !ready ==> probes == old(probes) + 5
      ensures slept == old(slept) + Pauses(probes - old(probes))
      ensures slept <= old(slept) + 15
    {
      waits := waits + 1;
      var delay := 1;
      PausesAreShort();
      for attempt := 1 to 6
        invariant probes == old(probes) + attempt - 1 && waits == old(waits) + 1
        invariant attempt < 6 ==> delay == Pause(attempt) && slept == old(slept) + Pauses(attempt)
        invariant attempt < 6
        invariant forall k :: old(probes) <= k < probes ==> probeAt(k) == Failing
      {
        var status := probeAt(probes);
        probes := probes + 1;
        if status != Failing {
          return true;
        }
        if attempt == 5 {
          return false;
        }
        slept := slept + delay;
        delay := if delay * 2 < 8 then delay * 2 else 8;
      }
      return false;
    }

    /** One more operation, reported only when it ran. */
    method ExecuteServiceAction(service: string, action: ServiceAction) returns (r: Result<(), BringUpError>)
      requires accumulated == executed
      modifies this`accumulated, this`executed, this`attempts, this`extra
      ensures extra == old(extra) + 1 && accumulated == executed
      ensures attempts == old(attempts) + if plan(service, action).Some? then 1 else 0
      ensures r.Ok? <==> plan(service, action).Some? && !failsAt(old(attempts))
      ensures r.Ok? ==> executed == old(executed) + [plan(service, action).value]
      ensures r.Err? ==> executed == old(executed)
      ensures r.Err? ==> r.error == if plan(service, action).None? then PlanFailed(service) else ExecutionFailed
    {
      extra := extra + 1;
      var operation := plan(service, action);
      if operation.None? {
        return Err(PlanFailed(service));
      }
      var ok := Execute([operation.value]);
      assert ok <==> !failsAt(old(attempts));
      if !ok {
        return Err(ExecutionFailed);
      }
      accumulated := accumulated + [operation.value];
      return Ok(());
    }

    /** The operations a rung of the ladder adds. */
    ghost function Planned(used: bool, steps: seq<Step>): seq<Operation>
    {
      if used then seq(|steps|, i requires 0 <= i < |steps| =>
        match plan(steps[i].service, steps[i].action) case Some(o) => o case None => Operation(Start, "")) else []
    }

    /** First rung. `failing` says that readiness is still missing. */
    method RetryService(service: string, initial: RuntimeState) returns (r: Result<bool, BringUpError>)
      requires accumulated == executed && probes > 0 && probeAt(probes - 1) == Failing
      modifies this`accumulated, this`executed, this`attempts, this`extra, this`probes, this`slept, this`waits
      ensures accumulated == executed && probes > 0
      ensures r.Err? <==> Restarts(service, initial) && (plan(service, Restart).None? || failsAt(old(attempts)))
      ensures r.Err? ==> r.error == if plan(service, Restart).None? then PlanFailed(service) else ExecutionFailed
      ensures r.Err? ==> executed == old(executed) && probes == old(probes)
      ensures r.Ok? ==> (r.value <==> probeAt(probes - 1) == Failing)
      ensures r.Ok? ==> executed == old(executed) + Planned(Restarts(service, initial), [Step(service, Restart)])
      ensures r.Ok? && Restarts(service, initial) ==>
        && attempts == old(attempts) + 1 && (r.value <==> AllFail(old(probes)))
        && (r.value ==> probes == old(probes) + 5)
      ensures !Restarts(service, initial) ==> r == Ok(true) && attempts == old(attempts) && probes == old(probes)
      ensures extra == old(extra) + (if Restarts(service, initial) then 1 else 0)
      ensures waits <= old(waits) + (if Restarts(service, initial) then 1 else 0)
      ensures probes <= old(probes) + 5 && slept <= old(slept) + 15
      ensures r.Err? ==> probeAt(probes - 1) == Failing
    {
      if service != MEMPOOL || initial != Unknown {
        assert executed == old(executed) + Planned(false, [Step(service, Restart)]);
        return Ok(true);
      }
      var action := ExecuteServiceAction(service, Restart);
      if action.Err? {
        return Err(action.error);
      }
      assert Planned(true, [Step(service, Restart)]) == [plan(service, Restart).value];
      var ready := WaitForReadiness();
      return Ok(!ready);
    }

    /** Second rung: only when a podman machine among the dependencies is degraded. */
    method RetryRuntime(service: string) returns (r: Result<(), BringUpError>)
      requires accumulated == executed && service in config
      requires probes > 0 && probeAt(probes - 1) == Failing
      modifies this`accumulated, this`executed, this`attempts, this`extra, this`probes, this`slept, this`waits
      ensures accumulated == executed
      ensures r.Ok? <==> RuntimeHelps(service, old(attempts), old(probes))
      ensures r.Err? ==>
        && old(executed) <= executed && old(probes) <= probes
        && RuntimeGivesUp(service, r.error, executed[|old(executed)|..], old(attempts), old(probes), probes - old(probes))
      ensures probes > 0 && (r.Ok? <==> probeAt(probes - 1) != Failing)
      ensures r.Ok? ==> var machine := Machine(service);
                        && IsDegraded(machine)
                        && executed == old(executed) + Planned(true, [Step(machine.value, Restart), Step(service, Start)])
      ensures waits <= old(waits) + 1 && extra <= old(extra) + 2
      ensures probes <= old(probes) + 5 && slept <= old(slept) + 15
    {
      var machine := RuntimeService(config, config[service].dependsOn);
      if machine.None? {
        return Err(NotReady);
      }
      if stateOf(machine.value).None? {
        return Err(StateFailed(machine.value));
      }
      if stateOf(machine.value) != Some(Degraded) {
        return Err(NotReady);
      }
      var restarted := ExecuteServiceAction(machine.value, Restart);
      if restarted.Err? {
        return restarted;
      }
      var reapplied := ExecuteServiceAction(service, Start);
      if reapplied.Err? {
        return reapplied;
      }
      assert Planned(true, [Step(machine.value, Restart), Step(service, Start)])
          == [plan(machine.value, Restart).value, plan(service, Start).value];
      assert executed == old(executed) + [plan(machine.value, Restart).value, plan(service, Start).value];
      var ready := WaitForReadiness();
      if !ready {
        return Err(NotReady);
      }
      return Ok(());
    }

    /** The whole ladder. */
    method Recover(service: string, initial: RuntimeState) returns (r: Result<(), BringUpError>)
      requires accumulated == executed && service in config
      modifies this`accumulated, this`executed, this`attempts, this`extra, this`probes, this`slept, this`waits
      ensures accumulated == executed
      ensures r.Ok? <==> LadderHelps(service, initial, old(attempts), old(probes))
      ensures probes > 0 && (r.Ok? <==> probeAt(probes - 1) != Failing)
      ensures r.Ok? ==> exists restart: bool, runtime: bool ::
                LadderRan(old(executed), executed, service, initial, restart, runtime)
      ensures old(executed) <= executed
      ensures waits <= old(waits) + 3 && extra <= old(extra) + 3
      ensures probes <= old(probes) + 15 && slept <= old(slept) + 45
    {
      hide AllFail, RuntimeHelps, RuntimeGivesUp, Machine, Failed, Pauses, RuntimeService;
      var ready := WaitForReadiness();
      if ready {
        assert LadderRan(old(executed), executed, service, initial, false, false);
        return Ok(());
      }
      var failing := RetryService(service, initial);
      if failing.Err? {
        return Err(failing.error);
      }
      ghost var restart := Restarts(service, initial);
      if !failing.value {
        assert LadderRan(old(executed), executed, service, initial, restart, false);
        return Ok(());
      }
      r := RetryRuntime(service);
      if r.Ok? {
        assert LadderRan(old(executed), executed, service, initial, restart, true);
      }
    }

    /** Which extra operations a successful ladder ran, in order. */
    ghost predicate LadderRan(before: seq<Operation>, after: seq<Operation>, service: string, initial: RuntimeState,
                              restart: bool, runtime: bool)
    {
      var machine := Machine(service);
      && (restart ==> Restarts(service, initial)) && (runtime ==> IsDegraded(machine))
      && after == before + Planned(restart, [Step(service, Restart)])
                  + (if runtime then Planned(true, [Step(machine.value, Restart), Step(service, Start)]) else [])
    }

    /** The operations begin with a sound plan for the target, and are nothing else unless it is mempool. */
    ghost predicate Carried(target: string, dryRun: bool, states: States, operations: seq<Operation>) {
      exists order: seq<string>, count: nat ::
        && count <= |operations| && (target != MEMPOOL || dryRun ==> count == |operations|)
        && SoundPlan(config, target, order, Steps(config, order, dryRun, states))
        && Realizes(operations[..count], Steps(config, order, dryRun, states), plan)
        && (dryRun ==> count == |order|)
    }

    lemma CarriedBy(target: string, dryRun: bool, states: States, order: seq<string>, planned: seq<Operation>,
                    operations: seq<Operation>)
      requires planned <= operations && (target != MEMPOOL || dryRun ==> operations == planned)
      requires SoundPlan(config, target, order, Steps(config, order, dryRun, states))
      requires Realizes(planned, Steps(config, order, dryRun, states), plan)
      requires dryRun ==> |planned| == |order|
      ensures Carried(target, dryRun, states, operations)
    {
      assert operations[..|planned|] == planned;
    }

    /** The operations of a sound plan for the target. */
    ghost predicate PlannedFor(target: string, dryRun: bool, states: States, operations: seq<Operation>) {
      exists order: seq<string> ::
        && SoundPlan(config, target, order, Steps(config, order, dryRun, states))
        && Realizes(operations, Steps(config, order, dryRun, states), plan)
    }

    /** None of the planned operations fails, and for mempool the ladder helps. */
    ghost predicate Succeeds(target: string, initial: RuntimeState, a: nat, count: nat) {
      !Failed(a, a + count) && (target == MEMPOOL ==> LadderHelps(target, initial, a + count, 0))
    }

    /** A bring-up from its target to its report. On success the reported plan is what really
        ran, in order, unless it was a dry run, which runs nothing; a mempool bring-up
        succeeds only after a probe that was ready or syncing. A bring-up that can be planned fails exactly when one
        of its operations does or the ladder does not help. */
    method BringUpService(target: string, dryRun: bool, states: States, initial: Option<RuntimeState>)
      returns (r: Result<seq<Operation>, BringUpError>, ghost planned: seq<Operation>)
      requires accumulated == [] && executed == [] && probes == waits == extra == slept == 0
      modifies this
      ensures r.Ok? ==> Carried(target, dryRun, states, r.value)
      ensures r.Ok? && !dryRun ==> r.value == executed
      ensures executed <= accumulated && (dryRun ==> accumulated == [] && probes == 0)
      ensures r.Ok? && !dryRun && target == MEMPOOL ==> probes > 0 && probeAt(probes - 1) != Failing
      ensures target != MEMPOOL ==> probes == 0
      ensures !Plannable(config, target, dryRun, plan, states, initial) ==> r.Err? && executed == [] && probes == 0
      ensures Plannable(config, target, dryRun, plan, states, initial) ==>
        && PlannedFor(target, dryRun, states, planned)
        && (r.Ok? <==> dryRun || Succeeds(target, initial.value, old(attempts), |planned|))
        && (r.Err? && Failed(old(attempts), old(attempts) + |planned|) ==>
              r.error.ExecutionFailed? && probes == 0 && StoppedAt([], executed, planned, old(attempts), attempts))
        && (r.Err? && !Failed(old(attempts), old(attempts) + |planned|) ==>
              target == MEMPOOL && planned <= executed && probes > 0 && probeAt(probes - 1) == Failing)
      ensures waits <= 3 && probes <= 15 && extra <= 3 && slept <= 45
    {
      hide Carried, SoundPlan, Realizes, Steps, LadderRan, Reaches, AllExist, Acyclic, Genuine, RuntimeService,
        Fails, Failed, LadderHelps;
      var order, plans := PlanBringUp(config, target, dryRun, plan, states, initial);
      if plans.Err? {
        return plans, [];
      }
      planned := plans.value;
      assert PlannedFor(target, dryRun, states, planned);
      if dryRun {
        CarriedBy(target, dryRun, states, order, planned, planned);
        return plans, planned;
      }
      accumulated := plans.value;
      var ok := Execute(accumulated);
      assert [] + planned == planned;
      if !ok {
        return Err(ExecutionFailed), planned;
      }
      if target == MEMPOOL {
        TargetExists(config, target);
        var recovered := Recover(target, initial.value);
        if recovered.Err? {
          return Err(recovered.error), planned;
        }
      }
      CarriedBy(target, dryRun, states, order, planned, executed);
      return Ok(accumulated), planned;
    }
  }
}
