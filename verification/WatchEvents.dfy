/** What a watch cycle writes to the log, and the language of the logs a cycle can write. */
module WatchEvents {
  import opened Wrappers

  datatype Health = Healthy | Syncing | Unhealthy

  /** One log line of a watch, by event name and detail. */
  datatype Event =
    | AdmissionPaused(code: Option<int>, timedOut: bool)
    | AdmissionBlocked(code: Option<int>, timedOut: bool)
    | CheckStart
    | CheckResult(health: Health)
    | ConfirmWait(seconds: nat)
    | ConfirmResult(health: Health)
    | RecoveryStart
    | RecoveryDone(code: Option<int>, timedOut: bool)
    | RecoveryDeferred
    | CommandFailure(code: Option<int>, timedOut: bool, stderr: string)
    | PostCheck(health: Health)
    | Watching(seconds: nat, pollSeconds: nat)
    | StabilizationCheck(attempt: nat, health: Health)
    | Recovered(checks: nat)
    | Stabilizing(checks: nat)
    | Unrecovered(health: Health, checks: nat)
    | Cooldown(seconds: nat)

  predicate AdmissionRefusal(e: Event) { e.AdmissionPaused? || e.AdmissionBlocked? }

  /** How far a cycle's log has come. `Owed` means that an outcome line must follow. */
  datatype Stage =
    | Opening | Checking | Doubted | Confirming | Confirmed | Recovering
    | Finished | Failing(code: Option<int>, timedOut: bool) | Failed | Posted | Polling(checks: nat)
    | OwedRecovered(checks: nat) | OwedStabilizing(checks: nat) | Cooling | Over | Stuck

  /** The stage after one more line; `Stuck` when no cycle writes that line there. */
  function Advance(confirm: bool, stage: Stage, e: Event): Stage {
    match stage
    case Opening => if e.CheckStart? then Checking else if AdmissionRefusal(e) then Over else Stuck
    case Checking => if e.CheckResult? then (if e.health == Unhealthy then Doubted else Over) else Stuck
    case Doubted =>
      if confirm then (if e.ConfirmWait? then Confirming else Stuck)
      else if e.RecoveryStart? then Recovering
      else if AdmissionRefusal(e) then Over else Stuck
    case Confirming =>
      if e.ConfirmResult? then (if e.health == Unhealthy then Confirmed else Over)
      else if AdmissionRefusal(e) then Over else Stuck
    case Confirmed => if e.RecoveryStart? then Recovering else if AdmissionRefusal(e) then Over else Stuck
    case Recovering =>
      if !e.RecoveryDone? then Stuck
      else if e.timedOut || e.code != Some(0) then Failing(e.code, e.timedOut)
      else Finished
    case Failing(code, timedOut) =>
      if e.RecoveryDeferred? && code == Some(75) && !timedOut then Over
      else if e.CommandFailure? && e.code == code && e.timedOut == timedOut then Failed
      else Stuck
    case Finished => AfterRecovery(e)
    case Failed => AfterRecovery(e)
    case Posted => if e.Watching? then Polling(0) else Stuck
    case Polling(n) =>
      if e.StabilizationCheck? && e.attempt == n + 1 then
        match e.health
        case Healthy => OwedRecovered(n + 1)
        case Syncing => OwedStabilizing(n + 1)
        case Unhealthy => Polling(n + 1)
      else if e == Unrecovered(Unhealthy, n) || AdmissionRefusal(e) then Over
      else Stuck
    case OwedRecovered(n) => if e == Recovered(n) then Cooling else Stuck
    case OwedStabilizing(n) => if e == Stabilizing(n) then Over else Stuck
    case Cooling => if e.Cooldown? then Over else Stuck
    case Over => Stuck
    case Stuck => Stuck
  }

  function AfterRecovery(e: Event): Stage {
    if AdmissionRefusal(e) then Over
    else if e.PostCheck? then
      match e.health
      case Healthy => OwedRecovered(0)
      case Syncing => OwedStabilizing(0)
      case Unhealthy => Posted
    else Stuck
  }

  function StageOf(confirm: bool, events: seq<Event>): Stage {
    if events == [] then Opening
    else Advance(confirm, StageOf(confirm, events[..|events| - 1]), events[|events| - 1])
  }

  /** The logs of whole cycles: a cycle may stop anywhere but where an outcome line is owed. */
  predicate IsCycle(confirm: bool, events: seq<Event>) {
    var stage := StageOf(confirm, events);
    !stage.Stuck? && !stage.OwedRecovered? && !stage.OwedStabilizing?
  }

  lemma StageOfAppend(confirm: bool, events: seq<Event>, e: Event)
    ensures StageOf(confirm, events + [e]) == Advance(confirm, StageOf(confirm, events), e)
  {
    assert (events + [e])[..|events|] == events;
  }
}
