/** The bring-up plan of a service: which operation each reachable service gets, and in which order. */
module BringUp {
  import opened Wrappers
  import opened DependencyOrder

  datatype RuntimeState = Running | Stopped | Syncing | Degraded | Unknown

  datatype ServiceAction = Start | Restart

  /** One adapter operation on the unit, machine or compose project of a service. */
  datatype Operation = Operation(action: ServiceAction, resource: string)

  datatype BringUpError =
    | OrderFailed(order: OrderError)
    | PlanFailed(service: string)
    | StateFailed(service: string)
    | ExecutionFailed
    | NotReady

  type Planner = (string, ServiceAction) -> Option<Operation>
  type States = string -> Option<RuntimeState>

  const PODMAN_MACHINE := "podman_machine"
  const MEMPOOL := "mempool"

  function BringUpAction(service: string, manager: string, state: RuntimeState): Option<ServiceAction> {
    match state
    case Stopped => Some(Start)
    case Unknown => Some(Start)
    case Degraded => if service == MEMPOOL || manager == PODMAN_MACHINE then Some(Restart) else None
    case Running => None
    case Syncing => None
  }

  // ----------------------------------------------------------- what is decided

  datatype Step = Step(service: string, action: ServiceAction)

  function Chosen(config: Config, service: string, dryRun: bool, states: States): Option<ServiceAction> {
    if dryRun then Some(Start)
    else if service in config && states(service).Some? then
      BringUpAction(service, config[service].manager, states(service).value)
    else None
  }

  /** Bring-up cannot plan for this service. */
  predicate Fails(config: Config, service: string, dryRun: bool, plan: Planner, states: States) {
    || (!dryRun && (service !in config || states(service).None?))
    || (var action := Chosen(config, service, dryRun, states);
        action.Some? && plan(service, action.value).None?)
  }

  function Steps(config: Config, order: seq<string>, dryRun: bool, states: States): seq<Step> {
    if order == [] then [] else
    var last := order[|order| - 1];
    var before := Steps(config, order[..|order| - 1], dryRun, states);
    match Chosen(config, last, dryRun, states)
    case None => before
    case Some(action) => before + [Step(last, action)]
  }

  ghost predicate Realizes(operations: seq<Operation>, steps: seq<Step>, plan: Planner) {
    && |operations| == |steps|
    && forall i :: 0 <= i < |steps| ==> plan(steps[i].service, steps[i].action) == Some(operations[i])
  }

  method BuildBringUpPlan(config: Config, order: seq<string>, dryRun: bool, plan: Planner, states: States)
    returns (r: Result<seq<Operation>, BringUpError>)
    ensures r.Ok? <==> forall i :: 0 <= i < |order| ==> !Fails(config, order[i], dryRun, plan, states)
    ensures r.Ok? ==> Realizes(r.value, Steps(config, order, dryRun, states), plan)
    ensures r.Err? ==> exists i :: 0 <= i < |order| && Fails(config, order[i], dryRun, plan, states)
                                   && (r.error == PlanFailed(order[i]) || r.error == StateFailed(order[i]))
                                   && forall j :: 0 <= j < i ==> !Fails(config, order[j], dryRun, plan, states)
  {
    var operations := [];
    for i := 0 to |order|
      invariant forall j :: 0 <= j < i ==> !Fails(config, order[j], dryRun, plan, states)
      invariant Realizes(operations, Steps(config, order[..i], dryRun, states), plan)
    {
      var service := order[i];
      assert order[..i + 1][..i] == order[..i];
      if dryRun {
        var operation := plan(service, Start);
        if operation.None? {
          return Err(PlanFailed(service));
        }
        operations := operations + [operation.value];
      } else {
        if service !in config || states(service).None? {
          return Err(StateFailed(service));
        }
        var action := BringUpAction(service, config[service].manager, states(service).value);
        if action.Some? {
          var operation := plan(service, action.value);
          if operation.None? {
            return Err(PlanFailed(service));
          }
          operations := operations + [operation.value];
        }
      }
    }
    assert order[..|order|] == order;
    return Ok(operations);
  }

  // ----------------------------------------------- what the decisions amount to

  /** A service gets a step exactly when it is in the order and an action was chosen for it. */
  lemma {:induction false} StepsExactly(config: Config, order: seq<string>, dryRun: bool, states: States, step: Step)
    ensures step in Steps(config, order, dryRun, states) <==>
            step.service in order && Chosen(config, step.service, dryRun, states) == Some(step.action)
  {
    if order != [] {
      StepsExactly(config, order[..|order| - 1], dryRun, states, step);
      assert order == order[..|order| - 1] + [order[|order| - 1]];
    }
  }

  /** Steps keep the order of their services. */
  lemma {:induction false} StepsInOrder(config: Config, order: seq<string>, dryRun: bool, states: States, i: nat, j: nat)
    requires i < j < |Steps(config, order, dryRun, states)|
    ensures var steps := Steps(config, order, dryRun, states);
            exists p, q :: 0 <= p < q < |order| && order[p] == steps[i].service && order[q] == steps[j].service
  {
    var front, last := order[..|order| - 1], order[|order| - 1];
    var before, steps := Steps(config, front, dryRun, states), Steps(config, order, dryRun, states);
    if j < |before| {
      StepsInOrder(config, front, dryRun, states, i, j);
      var p, q :| 0 <= p < q < |front| && front[p] == before[i].service && front[q] == before[j].service;
      assert order[p] == steps[i].service && order[q] == steps[j].service;
    } else {
      StepsExactly(config, front, dryRun, states, before[i]);
      var p :| 0 <= p < |front| && front[p] == before[i].service;
      assert order[p] == steps[i].service && order[|order| - 1] == steps[j].service;
    }
  }

  /** At most one operation per service, and a dependency's before its dependents'. */
  lemma StepsRespectDependencies(config: Config, order: seq<string>, dryRun: bool, states: States, i: nat, j: nat)
    requires NoRepeats(order) && DependenciesFirst(config, order)
    requires i < j < |Steps(config, order, dryRun, states)|
    ensures var steps := Steps(config, order, dryRun, states);
            steps[i].service != steps[j].service && !DependsOn(config, steps[i].service, steps[j].service)
  {
    var steps := Steps(config, order, dryRun, states);
    StepsInOrder(config, order, dryRun, states, i, j);
    var p, q :| 0 <= p < q < |order| && order[p] == steps[i].service && order[q] == steps[j].service;
    if DependsOn(config, order[p], order[q]) { DependencyComesBefore(config, order, p, q); }
  }

  /** A dry run starts everything in the order; a real run leaves running and syncing services
      alone, starts stopped and unknown ones, and restarts degraded mempool and podman machines only. */
  lemma StepsByState(config: Config, order: seq<string>, states: States, service: string)
    requires service in order
    ensures Step(service, Start) in Steps(config, order, true, states)
    ensures Step(service, Restart) !in Steps(config, order, true, states)
    ensures states(service) == Some(Running) || states(service) == Some(Syncing) ==>
              forall step :: step in Steps(config, order, false, states) ==> step.service != service
    ensures service in config && (states(service) == Some(Stopped) || states(service) == Some(Unknown)) ==>
              Step(service, Start) in Steps(config, order, false, states)
    ensures service in config && states(service) == Some(Degraded) ==>
              && Step(service, Start) !in Steps(config, order, false, states)
              && (Step(service, Restart) in Steps(config, order, false, states) <==>
                  service == MEMPOOL || config[service].manager == PODMAN_MACHINE)
  {
    StepsExactly(config, order, false, states, Step(service, Restart));
    StepsExactly(config, order, true, states, Step(service, Start));
    StepsExactly(config, order, true, states, Step(service, Restart));
    StepsExactly(config, order, false, states, Step(service, Start));
    forall step | step in Steps(config, order, false, states)
      ensures Chosen(config, step.service, false, states) == Some(step.action)
    {
      StepsExactly(config, order, false, states, step);
    }
  }

  /** A whole dry-run bring-up or the planning half of a real one. */
  ghost predicate SoundPlan(config: Config, target: string, order: seq<string>, steps: seq<Step>) {
    && (forall n :: n in order <==> Reaches(config, target, n))
    && (forall i :: 0 <= i < |steps| ==> Reaches(config, target, steps[i].service))
    && (forall i, j :: 0 <= i < j < |steps| ==>
          steps[i].service != steps[j].service && !DependsOn(config, steps[i].service, steps[j].service))
  }

  lemma OrderGivesSoundPlan(config: Config, target: string, order: seq<string>, dryRun: bool, states: States)
    requires NoRepeats(order) && DependenciesFirst(config, order)
    requires forall n :: n in order <==> Reaches(config, target, n)
    ensures SoundPlan(config, target, order, Steps(config, order, dryRun, states))
  {
    var steps := Steps(config, order, dryRun, states);
    forall i | 0 <= i < |steps| ensures Reaches(config, target, steps[i].service) {
      StepsExactly(config, order, dryRun, states, steps[i]);
    }
    forall i, j | 0 <= i < j < |steps|
      ensures steps[i].service != steps[j].service && !DependsOn(config, steps[i].service, steps[j].service)
    {
      StepsRespectDependencies(config, order, dryRun, states, i, j);
    }
  }

  /** Everything reachable exists, lies on no cycle and can be planned for. */
  ghost predicate Plannable(config: Config, target: string, dryRun: bool, plan: Planner, states: States,
                            initial: Option<RuntimeState>)
  {
    && AllExist(config, target) && Acyclic(config, target) && (dryRun || initial.Some?)
    && forall n :: Reaches(config, target, n) ==> !Fails(config, n, dryRun, plan, states)
  }

  /** The planning half of a bring-up. `initial` is the target's state as first asked for. */
  method PlanBringUp(config: Config, target: string, dryRun: bool, plan: Planner, states: States, initial: Option<RuntimeState>)
    returns (order: seq<string>, r: Result<seq<Operation>, BringUpError>)
    ensures r.Ok? <==> Plannable(config, target, dryRun, plan, states, initial)
    ensures AllExist(config, target) && Acyclic(config, target) <==> !(r.Err? && r.error.OrderFailed?)
    ensures r.Ok? ==> SoundPlan(config, target, order, Steps(config, order, dryRun, states))
    ensures r.Ok? ==> Realizes(r.value, Steps(config, order, dryRun, states), plan)
    ensures r.Ok? && dryRun ==> |r.value| == |order|
    ensures r.Err? && r.error.OrderFailed? ==> Genuine(config, target, r.error.order)
    ensures r.Err? ==> !r.error.ExecutionFailed? && !r.error.NotReady?
  {
    var resolved := ResolveBringUpOrder(config, target);
    if resolved.Err? {
      return [], Err(OrderFailed(resolved.error));
    }
    order := resolved.value;
    if !dryRun && initial.None? {
      return order, Err(StateFailed(target));
    }
    OrderGivesSoundPlan(config, target, order, dryRun, states);
    if dryRun { DryRunPlansAll(config, order, states); }
    r := BuildBringUpPlan(config, order, dryRun, plan, states);
    assert r.Ok? ==> forall n :: n in order ==> !Fails(config, n, dryRun, plan, states);
    assert forall i :: 0 <= i < |order| ==> Reaches(config, target, order[i]);
  }

  lemma TargetExists(config: Config, target: string)
    requires AllExist(config, target)
    ensures target in config
  {
    ReachesSelf(config, target);
  }

  lemma {:induction false} DryRunPlansAll(config: Config, order: seq<string>, states: States)
    ensures |Steps(config, order, true, states)| == |order|
  {
    if order != [] { DryRunPlansAll(config, order[..|order| - 1], states); }
  }
}
