/** Cycles at which the statistics differ from what one might expect. */
module CycleWitnesses {
  import opened Wrappers
  import opened WatchEvents
  import opened LogRecords
  import opened WatchStats
  import opened CycleStats
  import opened StatsReport

  function Logged(events: seq<Event>): Cycle {
    seq(|events|, i requires 0 <= i < |events| => Entry(i, events[i]))
  }

  lemma EventsOfLogged(events: seq<Event>)
    ensures Events(Logged(events)) == events
  {}

  const REPAIRED: seq<Event> :=
    [CheckStart, CheckResult(Unhealthy), RecoveryStart, RecoveryDone(Some(0), false), PostCheck(Healthy), Recovered(0)]

  lemma RepairedIsCycle()
    ensures IsCycle(false, REPAIRED)
  {
    var e := REPAIRED;
    assert e[..1] == [] + [e[0]] && e[..2] == e[..1] + [e[1]] && e[..3] == e[..2] + [e[2]];
    assert e[..4] == e[..3] + [e[3]] && e[..5] == e[..4] + [e[4]] && e == e[..5] + [e[5]];
    StageOfAppend(false, [], e[0]);
    StageOfAppend(false, e[..1], e[1]);
    StageOfAppend(false, e[..2], e[2]);
    StageOfAppend(false, e[..3], e[3]);
    StageOfAppend(false, e[..4], e[4]);
    StageOfAppend(false, e[..5], e[5]);
  }

  /** Without a confirmation delay a cycle can repair its service and not be counted at all. */
  lemma RepairGoesUncounted(watch: string)
    ensures var c := Logged(REPAIRED);
      && AreCycles(false, [c]) && AttemptedRecovery(c) && LoggedRecovery(c)
      && ReportOf(watch, TallyOfEntries(c)).totals == Totals(0, 0, 0, 0, 0)
  {
    hide Ran, First, ReportOf, LastState;
    var c := Logged(REPAIRED);
    EventsOfLogged(REPAIRED);
    RepairedIsCycle();
    assert c[2].event.RecoveryStart? && c[5].event.Recovered?;
    UnconfirmedPrefix(c, FRESH.book);
    EmptyReport(watch, TallyOfEntries(c));
  }

  const GIVEN_UP: seq<Event> :=
    [CheckStart, CheckResult(Unhealthy), RecoveryStart, RecoveryDone(Some(0), false), PostCheck(Unhealthy),
     Watching(0, 0), Unrecovered(Unhealthy, 0)]

  lemma GivenUpIsCycle()
    ensures IsCycle(false, GIVEN_UP)
  {
    var e := GIVEN_UP;
    assert e[..1] == [] + [e[0]] && e[..2] == e[..1] + [e[1]] && e[..3] == e[..2] + [e[2]];
    assert e[..4] == e[..3] + [e[3]] && e[..5] == e[..4] + [e[4]];
    assert e[..6] == e[..5] + [e[5]] && e == e[..6] + [e[6]];
    StageOfAppend(false, [], e[0]);
    StageOfAppend(false, e[..1], e[1]);
    StageOfAppend(false, e[..2], e[2]);
    StageOfAppend(false, e[..3], e[3]);
    StageOfAppend(false, e[..4], e[4]);
    StageOfAppend(false, e[..5], e[5]);
    StageOfAppend(false, e[..6], e[6]);
  }

  /** A cycle that gives up leaves a last state that names no state. */
  lemma UnrecoveredStateIsNoName()
    ensures IsCycle(false, GIVEN_UP)
    ensures LastState(Logged(GIVEN_UP)) == Some("state=unhealthy") && !NamesState("state=unhealthy")
  {
    hide IsCycle, NamesState;
    GivenUpIsCycle();
    var last := Unrecovered(Unhealthy, 0);
    var c := Logged(GIVEN_UP);
    assert c[|c| - 1].event == last;
    assert "state=" + "unhealthy" == "state=unhealthy";
    StateIsLabel(last);
  }
}
