/** The log line of each event of a watch cycle, and the record that is read back from it. */
module LogRecords {
  import opened Wrappers
  import opened WatchEvents
  import opened LogText

  function Digit(n: nat): char
    requires n < 10
  {
    '0' + n as char
  }

  function Decimal(n: nat): (s: string)
    ensures s != [] && forall i :: 0 <= i < |s| ==> '0' <= s[i] <= '9'
    ensures s[0] == '0' <==> n == 0
  {
    if n < 10 then [Digit(n)] else Decimal(n / 10) + [Digit(n % 10)]
  }

  function ValueOf(s: string): int {
    if s == [] then 0 else 10 * ValueOf(s[..|s| - 1]) + (s[|s| - 1] as int - '0' as int)
  }

  /** A number in a line means the number that was written. */
  lemma {:induction false} DecimalIsValue(n: nat)
    ensures ValueOf(Decimal(n)) == n
  {
    if n >= 10 {
      DecimalIsValue(n / 10);
      assert Decimal(n)[..|Decimal(n)| - 1] == Decimal(n / 10);
    }
  }

  function Number(n: int): string { if n < 0 then "-" + Decimal(-n) else Decimal(n) }

  function Label(h: Health): string {
    match h
    case Healthy => "healthy"
    case Syncing => "syncing"
    case Unhealthy => "unhealthy"
  }

  /** `health_label`: the state with its key already in front. */
  function HealthLabel(h: Health): string { "state=" + Label(h) }

  function CodeText(code: Option<int>): string { if code.Some? then Number(code.value) else "signal" }

  function Flag(b: bool): string { if b then "true" else "false" }

  function Title(e: Event): string {
    match e
    case AdmissionPaused(_, _) => "watch.paused"
    case AdmissionBlocked(_, _) => "watch.blocked"
    case CheckStart => "check.start"
    case CheckResult(_) => "check.result"
    case ConfirmWait(_) => "check.confirm_wait"
    case ConfirmResult(_) => "check.confirm_result"
    case RecoveryStart => "recovery.start"
    case RecoveryDone(_, _) => "recovery.done"
    case RecoveryDeferred => "watch.paused"
    case CommandFailure(_, _, _) => "recovery.command_failure"
    case PostCheck(_) => "recovery.post_check"
    case Watching(_, _) => "recovery.stabilizing"
    case StabilizationCheck(_, _) => "recovery.stabilization_check"
    case Recovered(_) => "recovery.outcome"
    case Stabilizing(_) => "recovery.outcome"
    case Unrecovered(_, _) => "recovery.outcome"
    case Cooldown(_) => "cooldown"
  }

  function Ending(code: Option<int>, timedOut: bool): seq<Pair> {
    [("exit_code", CodeText(code)), ("timed_out", Flag(timedOut))]
  }

  function OutcomePairs(outcome: string, state: string, checks: nat): seq<Pair> {
    [("outcome", outcome), ("state", state), ("checks", Decimal(checks))]
  }

  /** The `key=value` words of an event; for a command failure, those before its error text. */
  function Pairs(e: Event): seq<Pair> {
    match e
    case AdmissionPaused(code, timedOut) => [("reason", "admission")] + Ending(code, timedOut)
    case AdmissionBlocked(code, timedOut) => [("reason", "admission")] + Ending(code, timedOut)
    case CheckStart => []
    case CheckResult(h) => [("state", Label(h))]
    case ConfirmWait(seconds) => [("seconds", Decimal(seconds))]
    case ConfirmResult(h) => [("state", Label(h))]
    case RecoveryStart => []
    case RecoveryDone(code, timedOut) => Ending(code, timedOut)
    case RecoveryDeferred => [("reason", "recovery_deferred")]
    case CommandFailure(code, timedOut, _) => Ending(code, timedOut)
    case PostCheck(h) => [("state", Label(h))]
    case Watching(seconds, poll) => [("seconds", Decimal(seconds)), ("poll_seconds", Decimal(poll))]
    case StabilizationCheck(attempt, h) => [("attempt", Decimal(attempt)), ("state", Label(h))]
    case Recovered(checks) => OutcomePairs("recovered", "healthy", checks)
    case Stabilizing(checks) => OutcomePairs("stabilizing", "syncing", checks)
    case Unrecovered(h, checks) => OutcomePairs("unrecovered", HealthLabel(h), checks)
    case Cooldown(seconds) => [("seconds", Decimal(seconds))]
  }

  /** A detail never breaks its line. */
  function Sanitize(s: string): (r: string)
    ensures |r| == |s| && '\r' !in r && '\n' !in r
    ensures forall i :: 0 <= i < |s| && s[i] != '\r' && s[i] != '\n' ==> r[i] == s[i]
  {
    if s == [] then [] else [if s[0] == '\r' || s[0] == '\n' then ' ' else s[0]] + Sanitize(s[1..])
  }

  function TrimStart(s: string): string { if s != [] && Space(s[0]) then TrimStart(s[1..]) else s }

  function Trim(s: string): string
    decreases |s|
  {
    if s != [] && Space(s[|s| - 1]) then Trim(s[..|s| - 1]) else TrimStart(s)
  }

  predicate Blank(s: string) { forall k :: 0 <= k < |s| ==> Space(s[k]) }

  lemma {:induction false} TrimStartCuts(s: string) returns (i: nat)
    ensures i <= |s| && Blank(s[..i]) && TrimStart(s) == s[i..] && (i < |s| ==> !Space(s[i]))
  {
    hide Space;
    if s != [] && Space(s[0]) {
      var j := TrimStartCuts(s[1..]);
      i := j + 1;
      assert s[i..] == s[1..][j..] && forall k :: 1 <= k < i ==> s[k] == s[1..][..j][k - 1];
    } else {
      i := 0;
    }
  }

  /** Trimming cuts off white space at both ends and nothing else. */
  lemma {:induction false} TrimCuts(s: string) returns (i: nat, j: nat)
    ensures i <= j <= |s| && Trim(s) == s[i..j] && Blank(s[..i]) && Blank(s[j..])
    ensures i < j ==> !Space(s[i]) && !Space(s[j - 1])
    decreases |s|
  {
    hide Space;
    if s != [] && Space(s[|s| - 1]) {
      i, j := TrimCuts(s[..|s| - 1]);
      var front := s[..|s| - 1];
      assert front[i..j] == s[i..j] && front[..i] == s[..i];
      forall k | 0 <= k < |s| - j ensures Space(s[j..][k]) {
        if k < |s| - j - 1 { assert s[j..][k] == front[j..][k]; }
      }
    } else {
      i := TrimStartCuts(s);
      j := |s|;
    }
  }

  function DetailOf(e: Event): string {
    if e.CommandFailure? then Detail(Pairs(e)) + " stderr=" + Sanitize(Trim(e.stderr)) else Detail(Pairs(e))
  }

  /** One line of a watch: when it was written, and what it says. */
  datatype Entry = Entry(at: int, event: Event)

  function LineOf(codec: Codec, watch: string, entry: Entry): string {
    FormatLine(codec.format(entry.at), watch, Title(entry.event), DetailOf(entry.event))
  }

  function Record(watch: string, entry: Entry): LogEvent {
    LogEvent(entry.at, Title(entry.event), watch, MapOf(WithWatch(watch, Pairs(entry.event))))
  }

  lemma DecimalIsSolid(n: nat)
    ensures Solid(Decimal(n))
  {}

  lemma NumberIsSolid(n: int)
    ensures Solid(Number(n))
  {}

  lemma CodeIsZero(code: Option<int>)
    ensures Solid(CodeText(code))
    ensures CodeText(code) == "0" <==> code == Some(0)
  {
    if code.Some? {
      NumberIsSolid(code.value);
      if code.value == 0 {
        assert Decimal(0) == ['0' + 0 as char];
      } else {
        assert CodeText(code)[0] != '0';
      }
    } else {
      assert |CodeText(code)| == 6;
    }
  }

  lemma TitleIsPlain(e: Event)
    ensures ':' !in Title(e)
  {}

  lemma LabelIsSolid(h: Health)
    ensures Solid(Label(h)) && Solid(HealthLabel(h))
  {}

  predicate Plain(key: string) { Solid(key) && '=' !in key }

  lemma StateKeysArePlain()
    ensures Plain("reason") && Plain("exit_code") && Plain("timed_out") && Plain("state")
  {}

  lemma TimeKeysArePlain()
    ensures Plain("seconds") && Plain("poll_seconds") && Plain("attempt") && Plain("outcome") && Plain("checks")
  {}

  lemma KeysArePlain(e: Event)
    ensures forall k :: 0 <= k < |Pairs(e)| ==> Plain(Pairs(e)[k].0)
  {
    hide Label, HealthLabel, Decimal, CodeText, Flag, Plain;
    StateKeysArePlain();
    TimeKeysArePlain();
  }

  lemma OutcomesAreSolid()
    ensures Solid("recovered") && Solid("stabilizing") && Solid("unrecovered") && Solid("healthy") && Solid("syncing")
  {}

  lemma ReasonsAreSolid()
    ensures Solid("admission") && Solid("recovery_deferred") && Solid("true") && Solid("false")
  {}

  lemma ValuesAreSolid(e: Event)
    ensures forall k :: 0 <= k < |Pairs(e)| ==> Solid(Pairs(e)[k].1)
  {
    hide Solid, Label, HealthLabel, Decimal, CodeText;
    OutcomesAreSolid();
    ReasonsAreSolid();
    match e
    case AdmissionPaused(code, _) => CodeIsZero(code);
    case AdmissionBlocked(code, _) => CodeIsZero(code);
    case CheckStart =>
    case CheckResult(h) => LabelIsSolid(h);
    case ConfirmWait(seconds) => DecimalIsSolid(seconds);
    case ConfirmResult(h) => LabelIsSolid(h);
    case RecoveryStart =>
    case RecoveryDone(code, _) => CodeIsZero(code);
    case RecoveryDeferred =>
    case CommandFailure(code, _, _) => CodeIsZero(code);
    case PostCheck(h) => LabelIsSolid(h);
    case Watching(seconds, poll) => DecimalIsSolid(seconds); DecimalIsSolid(poll);
    case StabilizationCheck(attempt, h) => DecimalIsSolid(attempt); LabelIsSolid(h);
    case Recovered(checks) => DecimalIsSolid(checks);
    case Stabilizing(checks) => DecimalIsSolid(checks);
    case Unrecovered(h, checks) => DecimalIsSolid(checks); LabelIsSolid(h);
    case Cooldown(seconds) => DecimalIsSolid(seconds);
  }

  lemma PairsAreTidy(e: Event)
    ensures Tidy(Pairs(e))
  {
    hide Pairs, Solid;
    KeysArePlain(e);
    ValuesAreSolid(e);
  }

  lemma KeysDiffer(watch: string, e: Event)
    ensures DistinctKeys(WithWatch(watch, Pairs(e)))
  {
    var all := WithWatch(watch, Pairs(e));
    forall j, k | 0 <= j < k < |all| ensures all[j].0 != all[k].0 {
      assert all[j].0[0] != all[k].0[0] || |all[j].0| != |all[k].0|;
    }
  }

  /** Every line of a cycle but the one with error text is read back as it was written. */
  lemma EntryRoundTrip(codec: Codec, watch: string, entry: Entry)
    requires codec.Faithful() && codec.Represents(entry.at) && Solid(watch) && !entry.event.CommandFailure?
    ensures Reading(codec, LineOf(codec, watch, entry)) == Some(Record(watch, entry))
  {
    hide Tidy, DistinctKeys, Pairs, Title, Solid, Reading, FormatLine, Detail, MapOf;
    TitleIsPlain(entry.event);
    PairsAreTidy(entry.event);
    KeysDiffer(watch, entry.event);
    LineRoundTrip(codec, entry.at, watch, Title(entry.event), Pairs(entry.event));
  }
}
