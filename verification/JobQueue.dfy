/**
 * The two independent readings of the CI job queue: the supervisor's `queue`, which defers on any
 * doubt, and the dispatcher's `queue_hint`, which answers yes on any doubt.
 */
module JobQueue {
  import opened Wrappers

  /** Missing or mistyped JSON fields are `None`. */
  datatype Job = Job(tags: Option<seq<string>>)

  datatype Runner = Runner(
    id: int, projectType: bool, unprotected: bool, locked: bool,
    tags: Option<seq<string>>, runUntagged: Option<bool>, paused: Option<bool>, projects: Option<seq<int>>)

  datatype Reply = Unavailable | NotList | Jobs(jobs: seq<Job>)

  /** What the API answers; `pending` takes a project and a page number from 1. */
  datatype Api = Api(runner: Option<Runner>, running: Reply, pending: (int, nat) -> Reply)

  datatype Config = Config(runnerId: int, projectIds: seq<int>)

  datatype Reason =
    | NoAnswer | BadScope | ProjectsChanged | RunnerActive | BadQueue | UnknownTags | PageLimit

  datatype Verdict = Quiet | Found | Doubt(reason: Reason)

  const PAGE: nat := 100
  const PAGES: nat := 10

  predicate Subset(tags: seq<string>, offered: seq<string>) {
    forall t :: t in tags ==> t in offered
  }

  predicate Suits(runner: Runner, tags: seq<string>)
    requires runner.tags.Some? && runner.runUntagged.Some?
  {
    if tags != [] then Subset(tags, runner.tags.value) else runner.runUntagged.value
  }

  predicate Readable(runner: Runner) { runner.tags.Some? && runner.runUntagged.Some? }

  function VerdictOf(runner: Runner, job: Job): Verdict
    requires Readable(runner)
  {
    if job.tags.None? then Doubt(UnknownTags)
    else if Suits(runner, job.tags.value) then Found
    else Quiet
  }

  function ScanJobs(runner: Runner, jobs: seq<Job>): Verdict
    requires Readable(runner)
  {
    if jobs == [] then Quiet
    else if VerdictOf(runner, jobs[0]) != Quiet then VerdictOf(runner, jobs[0])
    else ScanJobs(runner, jobs[1..])
  }

  function ScanPages(api: Api, runner: Runner, project: int, page: nat): Verdict
    requires Readable(runner) && 1 <= page <= PAGES + 1
    decreases PAGES + 1 - page
  {
    if page > PAGES then Doubt(PageLimit) else
    match api.pending(project, page)
    case Unavailable => Doubt(NoAnswer)
    case NotList => Doubt(BadQueue)
    case Jobs(jobs) =>
      if ScanJobs(runner, jobs) != Quiet then ScanJobs(runner, jobs)
      else if |jobs| < PAGE then Quiet
      else ScanPages(api, runner, project, page + 1)
  }

  function ScanProjects(api: Api, runner: Runner, projects: seq<int>): Verdict
    requires Readable(runner)
  {
    if projects == [] then Quiet
    else if ScanPages(api, runner, projects[0], 1) != Quiet then ScanPages(api, runner, projects[0], 1)
    else ScanProjects(api, runner, projects[1..])
  }

  // ---- sorted project lists ----

  predicate Ascending(s: seq<int>) { forall i, j :: 0 <= i < j < |s| ==> s[i] <= s[j] }

  function Insert(s: seq<int>, x: int): seq<int> {
    if s == [] || x <= s[0] then [x] + s else [s[0]] + Insert(s[1..], x)
  }

  function Sorted(s: seq<int>): seq<int> {
    if s == [] then [] else Insert(Sorted(s[1..]), s[0])
  }

  lemma {:induction false} InsertPermutes(s: seq<int>, x: int)
    ensures multiset(Insert(s, x)) == multiset(s) + multiset{x}
  {
    if s != [] && x > s[0] {
      InsertPermutes(s[1..], x);
      assert s == [s[0]] + s[1..];
    }
  }

  lemma {:induction false} InsertSorts(s: seq<int>, x: int)
    requires Ascending(s)
    ensures Ascending(Insert(s, x))
    ensures Insert(s, x)[0] == x || (s != [] && Insert(s, x)[0] == s[0])
  {
    if s != [] && x > s[0] {
      InsertSorts(s[1..], x);
    }
  }

  lemma {:induction false} SortedSorts(s: seq<int>)
    ensures Ascending(Sorted(s)) && multiset(Sorted(s)) == multiset(s)
  {
    if s != [] {
      SortedSorts(s[1..]);
      InsertSorts(Sorted(s[1..]), s[0]);
      InsertPermutes(Sorted(s[1..]), s[0]);
      assert s == [s[0]] + s[1..];
    }
  }

  lemma AscendingParts(s: seq<int>, x: int)
    requires Ascending(s) && s != []
    ensures Ascending(s[1..]) && (x in multiset(s) ==> s[0] <= x)
    ensures multiset(s) == multiset{s[0]} + multiset(s[1..])
  {
    assert s == [s[0]] + s[1..];
  }

  lemma SameHead(s: seq<int>, t: seq<int>)
    requires Ascending(s) && Ascending(t) && multiset(s) == multiset(t) && s != [] && t != []
    ensures s[0] == t[0] && multiset(s[1..]) == multiset(t[1..])
  {
    hide Ascending;
    AscendingParts(s, t[0]);
    AscendingParts(t, s[0]);
    assert s[0] in multiset(s) && t[0] in multiset(t);
    assert multiset(s[1..]) == multiset(s) - multiset{s[0]} && multiset(t[1..]) == multiset(t) - multiset{t[0]};
  }

  lemma {:induction false} AscendingIsUnique(s: seq<int>, t: seq<int>)
    requires Ascending(s) && Ascending(t) && multiset(s) == multiset(t)
    ensures s == t
  {
    hide Ascending;
    assert |multiset(s)| == |s| && |multiset(t)| == |t|;
    if s != [] {
      SameHead(s, t);
      AscendingParts(s, 0);
      AscendingParts(t, 0);
      AscendingIsUnique(s[1..], t[1..]);
      assert s == [s[0]] + s[1..] && t == [t[0]] + t[1..];
    }
  }

  /** Sorting both lists compares them as multisets. */
  lemma SortedEqual(s: seq<int>, t: seq<int>)
    ensures Sorted(s) == Sorted(t) <==> multiset(s) == multiset(t)
  {
    SortedSorts(s);
    SortedSorts(t);
    if multiset(s) == multiset(t) { AscendingIsUnique(Sorted(s), Sorted(t)); }
  }

  // ---- the supervisor's reading ----

  predicate InScope(config: Config, runner: Runner) {
    runner.id == config.runnerId && runner.projectType && runner.unprotected && runner.locked
    && Readable(runner) && runner.paused.Some?
  }

  /** An absent project list counts as empty. */
  function ProjectsOf(runner: Runner): seq<int> { if runner.projects.Some? then runner.projects.value else [] }

  function QueueAnswer(config: Config, api: Api): Result<bool, Reason> {
    if api.runner.None? then Err(NoAnswer) else
    var runner := api.runner.value;
    if !InScope(config, runner) then Err(BadScope)
    else if Sorted(ProjectsOf(runner)) != Sorted(config.projectIds) then Err(ProjectsChanged)
    else if api.running.Unavailable? then Err(NoAnswer)
    else if api.running != Jobs([]) then Err(RunnerActive)
    else if runner.paused.value then Ok(false)
    else match ScanProjects(api, runner, Sorted(config.projectIds))
      case Quiet => Ok(false)
      case Found => Ok(true)
      case Doubt(reason) => Err(reason)
  }

  /** Searches a page for a job the runner may take; a job whose tags cannot be read ends the search. */
  method AnyEligible(runner: Runner, jobs: seq<Job>) returns (v: Verdict)
    requires Readable(runner)
    ensures v == ScanJobs(runner, jobs)
  {
    for i := 0 to |jobs|
      invariant ScanJobs(runner, jobs) == ScanJobs(runner, jobs[i..])
    {
      if jobs[i].tags.None? { return Doubt(UnknownTags); }
      if Suits(runner, jobs[i].tags.value) { return Found; }
    }
    v := Quiet;
  }

  method Queue(config: Config, api: Api) returns (r: Result<bool, Reason>)
    ensures r == QueueAnswer(config, api)
  {
    if api.runner.None? { return Err(NoAnswer); }
    var runner := api.runner.value;
    if !InScope(config, runner) { return Err(BadScope); }
    var projects := Sorted(ProjectsOf(runner));
    if projects != Sorted(config.projectIds) { return Err(ProjectsChanged); }
    if api.running.Unavailable? { return Err(NoAnswer); }
    if api.running.NotList? || api.running.jobs != [] { return Err(RunnerActive); }
    if runner.paused.value { return Ok(false); }
    for i := 0 to |projects|
      invariant ScanProjects(api, runner, projects) == ScanProjects(api, runner, projects[i..])
    {
      var done := false;
      for page := 1 to PAGES + 1
        invariant !done
        invariant ScanPages(api, runner, projects[i], 1) == ScanPages(api, runner, projects[i], page)
      {
        var reply := api.pending(projects[i], page);
        if reply.Unavailable? { return Err(NoAnswer); }
        if reply.NotList? { return Err(BadQueue); }
        var v := AnyEligible(runner, reply.jobs);
        if v.Doubt? { return Err(v.reason); }
        if v.Found? { return Ok(true); }
        if |reply.jobs| < PAGE { done := true; break; }
      }
      if !done { return Err(PageLimit); }
    }
    r := Ok(false);
  }

  // ---- the dispatcher's reading ----

  function HintAnswer(config: Config, api: Api): bool {
    if api.runner.None? || api.runner.value.id != config.runnerId then true else
    var runner := api.runner.value;
    if runner.paused == Some(true) then false
    else if runner.paused.None? || !Readable(runner) || runner.projects.None? then true
    else if Sorted(runner.projects.value) != Sorted(config.projectIds) then true
    else ScanProjects(api, runner, config.projectIds) != Quiet
  }

  method QueueHint(config: Config, api: Api) returns (r: bool)
    ensures r == HintAnswer(config, api)
  {
    if api.runner.None? { return true; }
    var runner := api.runner.value;
    if runner.id != config.runnerId { return true; }
    if runner.paused == Some(true) { return false; }
    if runner.paused.None? || !Readable(runner) || runner.projects.None? { return true; }
    if Sorted(runner.projects.value) != Sorted(config.projectIds) { return true; }
    var projects := config.projectIds;
    for i := 0 to |projects|
      invariant ScanProjects(api, runner, projects) == ScanProjects(api, runner, projects[i..])
    {
      var done := false;
      for page := 1 to PAGES + 1
        invariant !done
        invariant ScanPages(api, runner, projects[i], 1) == ScanPages(api, runner, projects[i], page)
      {
        var reply := api.pending(projects[i], page);
        if !reply.Jobs? { return true; }
        var v := AnyEligible(runner, reply.jobs);
        if v != Quiet { return true; }
        if |reply.jobs| < PAGE { done := true; break; }
      }
      if !done { return true; }
    }
    r := false;
  }

  // ---- a stable queue, served in pages ----

  function PageOf(jobs: seq<Job>, page: nat): seq<Job>
    requires page >= 1
  {
    var from, to := (page - 1) * PAGE, page * PAGE;
    if from >= |jobs| then [] else jobs[from..if to < |jobs| then to else |jobs|]
  }

  /** Every page shows its part of one list of pending jobs, all of them with readable tags. */
  ghost predicate Stable(api: Api, pending: int -> seq<Job>) {
    && (forall project, page: nat :: page >= 1 ==> api.pending(project, page) == Jobs(PageOf(pending(project), page)))
    && (forall project, k :: 0 <= k < |pending(project)| ==> pending(project)[k].tags.Some?)
  }

  function TagSet(tags: seq<string>): set<string> { set t | t in tags }

  /** The runner may take the job: it offers all of its tags, or takes jobs without any. */
  ghost predicate Takes(runner: Runner, job: Job)
    requires Readable(runner)
  {
    job.tags.Some? &&
    if TagSet(job.tags.value) == {} then runner.runUntagged.value else TagSet(job.tags.value) <= TagSet(runner.tags.value)
  }

  ghost predicate AnySuits(runner: Runner, jobs: seq<Job>)
    requires Readable(runner)
  {
    exists k :: 0 <= k < |jobs| && Takes(runner, jobs[k])
  }

  lemma SuitsMeansTakes(runner: Runner, job: Job)
    requires Readable(runner) && job.tags.Some?
    ensures Suits(runner, job.tags.value) <==> Takes(runner, job)
  {
    var tags, offered := job.tags.value, runner.tags.value;
    if tags != [] { assert tags[0] in TagSet(tags); }
    forall t ensures t in TagSet(tags) <==> t in tags {}
    forall t ensures t in TagSet(offered) <==> t in offered {}
    assert Subset(tags, offered) ==> TagSet(tags) <= TagSet(offered);
    if TagSet(tags) <= TagSet(offered) {
      forall t | t in tags ensures t in offered { assert t in TagSet(tags); }
    }
  }

  /** What ten pages show of a project. */
  function Shown(jobs: seq<Job>): seq<Job> { if |jobs| <= 1000 then jobs else jobs[..1000] }

  ghost function Direct(runner: Runner, jobs: seq<Job>): Verdict
    requires Readable(runner)
  {
    if AnySuits(runner, Shown(jobs)) then Found
    else if |jobs| < 1000 then Quiet
    else Doubt(PageLimit)
  }

  lemma {:induction false} ScanJobsFinds(runner: Runner, jobs: seq<Job>)
    requires Readable(runner) && forall k :: 0 <= k < |jobs| ==> jobs[k].tags.Some?
    ensures ScanJobs(runner, jobs) == if AnySuits(runner, jobs) then Found else Quiet
  {
    if jobs != [] {
      ScanJobsFinds(runner, jobs[1..]);
      assert jobs == [jobs[0]] + jobs[1..];
      SuitsEither(runner, [jobs[0]], jobs[1..]);
      SuitsMeansTakes(runner, jobs[0]);
      assert AnySuits(runner, [jobs[0]]) <==> Takes(runner, [jobs[0]][0]);
    }
  }

  /** Everything before job `k` can be read and not taken; job `k` can be taken or not be read, as `v` says. */
  ghost predicate Stops(runner: Runner, jobs: seq<Job>, k: nat, v: Verdict)
    requires Readable(runner)
  {
    && k < |jobs| && (forall j :: 0 <= j < k ==> jobs[j].tags.Some? && !Takes(runner, jobs[j]))
    && (if jobs[k].tags.None? then v == Doubt(UnknownTags) else v == Found && Takes(runner, jobs[k]))
  }

  /** The first job that can be taken, or whose tags cannot be read, decides a page. */
  lemma {:induction false} FirstJobDecides(runner: Runner, jobs: seq<Job>)
    requires Readable(runner)
    ensures var v := ScanJobs(runner, jobs);
      && (v == Quiet <==> forall k :: 0 <= k < |jobs| ==> jobs[k].tags.Some? && !Takes(runner, jobs[k]))
      && (v != Quiet ==> exists k: nat :: Stops(runner, jobs, k, v))
  {
    hide Takes, Suits;
    if jobs != [] {
      var rest, v := jobs[1..], ScanJobs(runner, jobs);
      FirstJobDecides(runner, rest);
      assert forall k :: 0 < k < |jobs| ==> jobs[k] == rest[k - 1];
      assert forall k :: 0 <= k < |rest| ==> rest[k] == jobs[k + 1];
      if jobs[0].tags.Some? { SuitsMeansTakes(runner, jobs[0]); }
      if VerdictOf(runner, jobs[0]) != Quiet {
        assert Stops(runner, jobs, 0, v);
        assert jobs[0].tags.None? || Takes(runner, jobs[0]);
      } else if v != Quiet {
        var k: nat :| Stops(runner, rest, k, v);
        assert Stops(runner, jobs, k + 1, v);
      }
    }
  }

  lemma SuitsEither(runner: Runner, a: seq<Job>, b: seq<Job>)
    requires Readable(runner)
    ensures AnySuits(runner, a + b) <==> AnySuits(runner, a) || AnySuits(runner, b)
  {
    var both := a + b;
    if AnySuits(runner, a) {
      var k :| 0 <= k < |a| && Takes(runner, a[k]);
      assert both[k] == a[k];
    }
    if AnySuits(runner, b) {
      var k :| 0 <= k < |b| && Takes(runner, b[k]);
      assert both[|a| + k] == b[k];
    }
  }

  function ShownFrom(jobs: seq<Job>, page: nat): seq<Job>
    requires page >= 1
  {
    var from := (page - 1) * PAGE;
    if from >= |Shown(jobs)| then [] else Shown(jobs)[from..]
  }

  lemma {:induction false} ScanPagesSees(api: Api, runner: Runner, project: int, page: nat, pending: int -> seq<Job>)
    requires Readable(runner) && 1 <= page <= PAGES + 1 && Stable(api, pending)
    requires page == 1 || (page - 1) * PAGE <= |pending(project)|
    ensures ScanPages(api, runner, project, page) ==
      if AnySuits(runner, ShownFrom(pending(project), page)) then Found
      else if |pending(project)| < 1000 then Quiet
      else Doubt(PageLimit)
    decreases PAGES + 1 - page
  {
    hide ScanJobs, Suits, AnySuits;
    var all := pending(project);
    if page > PAGES {
      assert ShownFrom(all, page) == [];
      NoneSuits(runner);
    } else {
      assert api.pending(project, page) == Jobs(PageOf(all, page));
      var jobs := PageOf(all, page);
      ScanJobsFinds(runner, jobs);
      if |jobs| < PAGE {
        assert ShownFrom(all, page) == jobs;
      } else {
        ScanPagesSees(api, runner, project, page + 1, pending);
        assert ShownFrom(all, page) == jobs + ShownFrom(all, page + 1);
        SuitsEither(runner, jobs, ShownFrom(all, page + 1));
      }
    }
  }

  lemma NoneSuits(runner: Runner)
    requires Readable(runner)
    ensures !AnySuits(runner, [])
  {}

  /** Paging a stable queue sees exactly its first thousand jobs. */
  lemma PagesSeeTheQueue(api: Api, runner: Runner, project: int, pending: int -> seq<Job>)
    requires Readable(runner) && Stable(api, pending)
    ensures ScanPages(api, runner, project, 1) == Direct(runner, pending(project))
  {
    ScanPagesSees(api, runner, project, 1, pending);
    assert ShownFrom(pending(project), 1) == Shown(pending(project));
  }

  /** Project `k` is the first that is not quiet, and its verdict is `v`. */
  ghost predicate LeadsWith(api: Api, runner: Runner, projects: seq<int>, k: int, v: Verdict)
    requires Readable(runner)
  {
    && 0 <= k < |projects| && ScanPages(api, runner, projects[k], 1) == v
    && forall j :: 0 <= j < k ==> ScanPages(api, runner, projects[j], 1) == Quiet
  }

  /** The verdict on a list of projects is that of the first one that is not quiet. */
  lemma {:induction false} FirstNotQuiet(api: Api, runner: Runner, projects: seq<int>)
    requires Readable(runner)
    ensures var v := ScanProjects(api, runner, projects);
      && (v == Quiet <==> forall k :: 0 <= k < |projects| ==> ScanPages(api, runner, projects[k], 1) == Quiet)
      && (v != Quiet ==> exists k :: LeadsWith(api, runner, projects, k, v))
  {
    hide ScanPages;
    if projects != [] {
      var rest := projects[1..];
      FirstNotQuiet(api, runner, rest);
      var v := ScanProjects(api, runner, projects);
      assert forall k :: 0 < k < |projects| ==> projects[k] == rest[k - 1];
      if ScanPages(api, runner, projects[0], 1) != Quiet {
        assert LeadsWith(api, runner, projects, 0, v);
      } else if v != Quiet {
        var k :| LeadsWith(api, runner, rest, k, v);
        assert projects[k + 1] == rest[k];
        assert LeadsWith(api, runner, projects, k + 1, v);
      }
      assert v == Quiet ==> forall k :: 0 <= k < |rest| ==> projects[k + 1] == rest[k];
      assert forall k :: 0 <= k < |rest| ==> rest[k] == projects[k + 1];
    }
  }

  /** Project `k` is the first in order whose pending jobs are not quiet. */
  ghost predicate Decides(runner: Runner, projects: seq<int>, pending: int -> seq<Job>, k: int, v: Verdict)
    requires Readable(runner)
  {
    && 0 <= k < |projects| && Direct(runner, pending(projects[k])) == v
    && forall j :: 0 <= j < k ==> Direct(runner, pending(projects[j])) == Quiet
  }

  lemma ScanIsDecided(api: Api, runner: Runner, projects: seq<int>, pending: int -> seq<Job>)
    requires Readable(runner) && Stable(api, pending)
    ensures var v := ScanProjects(api, runner, projects);
      && (v == Quiet <==> forall p :: p in projects ==> Direct(runner, pending(p)) == Quiet)
      && (v == Found <==> exists k :: Decides(runner, projects, pending, k, Found))
      && (v == Doubt(PageLimit) <==> exists k :: Decides(runner, projects, pending, k, Doubt(PageLimit)))
      && (v.Doubt? ==> v.reason == PageLimit)
  {
    hide ScanPages, ScanProjects, Stable, Direct;
    FirstNotQuiet(api, runner, projects);
    forall p ensures ScanPages(api, runner, p, 1) == Direct(runner, pending(p)) {
      PagesSeeTheQueue(api, runner, p, pending);
    }
    var v := ScanProjects(api, runner, projects);
    if v != Quiet {
      var k :| LeadsWith(api, runner, projects, k, v);
      assert Decides(runner, projects, pending, k, v);
      DirectIs(runner, pending(projects[k]));
      forall j, u | Decides(runner, projects, pending, j, u) && u != Quiet ensures u == v {
        assert j == k;
      }
    } else {
      forall p | p in projects ensures Direct(runner, pending(p)) == Quiet {
        var k :| 0 <= k < |projects| && projects[k] == p;
      }
    }
  }

  lemma DirectIs(runner: Runner, jobs: seq<Job>)
    requires Readable(runner)
    ensures var d := Direct(runner, jobs);
      && (d == Quiet <==> !AnySuits(runner, jobs) && |jobs| < 1000)
      && (d == Found <==> AnySuits(runner, Shown(jobs)))
      && (d == Quiet || d == Found || d == Doubt(PageLimit))
  {
    ShownSuits(runner, jobs);
  }

  /**
   * On a stable queue with the runner in scope and idle: no when the runner is paused or no project has
   * an eligible job and none fills ten pages; otherwise the first project in order that is not quiet
   * decides, yes when its first thousand jobs hold an eligible one and a deferral when they hold none.
   */
  lemma QueueAnswersTheSnapshot(config: Config, api: Api, pending: int -> seq<Job>)
    requires Stable(api, pending) && api.running == Jobs([])
    requires api.runner.Some? && InScope(config, api.runner.value)
    requires multiset(ProjectsOf(api.runner.value)) == multiset(config.projectIds)
    ensures var runner, ids, r := api.runner.value, Sorted(config.projectIds), QueueAnswer(config, api);
      && (r == Ok(false) <==> (runner.paused == Some(true) ||
            forall p :: p in config.projectIds ==> !AnySuits(runner, pending(p)) && |pending(p)| < 1000))
      && (r == Ok(true) <==>
            runner.paused == Some(false) && exists k :: Decides(runner, ids, pending, k, Found))
      && (r == Err(PageLimit) <==>
            runner.paused == Some(false) && exists k :: Decides(runner, ids, pending, k, Doubt(PageLimit)))
      && (r.Err? ==> r.error == PageLimit)
  {
    hide ScanProjects, Sorted, Stable, Direct, Decides;
    var runner, ids := api.runner.value, Sorted(config.projectIds);
    SortedEqual(ProjectsOf(runner), config.projectIds);
    SortedSorts(config.projectIds);
    SameMembers(ids, config.projectIds);
    ScanIsDecided(api, runner, ids, pending);
    PausedOrNot(runner);
    forall p { DirectIs(runner, pending(p)); }
  }

  lemma SameMembers(s: seq<int>, t: seq<int>)
    requires multiset(s) == multiset(t)
    ensures forall x :: x in s <==> x in t
  {
    forall x ensures x in s <==> x in t {
      assert x in s <==> x in multiset(s);
      assert x in t <==> x in multiset(t);
    }
  }

  lemma ShownSuits(runner: Runner, jobs: seq<Job>)
    requires Readable(runner)
    ensures AnySuits(runner, Shown(jobs)) ==> AnySuits(runner, jobs)
    ensures |jobs| < 1000 ==> Shown(jobs) == jobs
  {
    if AnySuits(runner, Shown(jobs)) {
      var k :| 0 <= k < |Shown(jobs)| && Takes(runner, Shown(jobs)[k]);
      assert jobs[k] == Shown(jobs)[k];
    }
  }

  // ---- what an answer presupposes ----

  /** The runner is the configured one, serves projects, takes unprotected work, is locked, and shows its tags, whether
      it takes untagged jobs and whether it is paused. */
  predicate Configured(config: Config, runner: Runner) {
    && runner.id == config.runnerId && runner.projectType && runner.unprotected && runner.locked
    && runner.tags.Some? && runner.runUntagged.Some? && runner.paused.Some?
  }

  /** The supervisor's reading gives an answer only for the configured runner with exactly the configured projects and
      no running job, and otherwise says what is amiss, the runner's scope before its projects and its running jobs. */
  lemma QueueNeedsScope(config: Config, api: Api)
    ensures var r := QueueAnswer(config, api);
      if api.runner.None? then r == Err(NoAnswer)
      else if !Configured(config, api.runner.value) then r == Err(BadScope)
      else if multiset(ProjectsOf(api.runner.value)) != multiset(config.projectIds) then r == Err(ProjectsChanged)
      else if api.running.Unavailable? then r == Err(NoAnswer)
      else if api.running != Jobs([]) then r == Err(RunnerActive)
      else r.Ok? || r.error == NoAnswer || r.error == BadQueue || r.error == UnknownTags || r.error == PageLimit
  {
    hide ScanProjects, Sorted, ScanPages;
    if api.runner.Some? {
      SortedEqual(ProjectsOf(api.runner.value), config.projectIds);
      if Readable(api.runner.value) { ScanDoubts(api, api.runner.value, Sorted(config.projectIds)); }
    }
  }

  lemma {:induction false} JobsDoubt(runner: Runner, jobs: seq<Job>)
    requires Readable(runner)
    ensures var v := ScanJobs(runner, jobs); v.Doubt? ==> v.reason == UnknownTags
  {
    if jobs != [] { JobsDoubt(runner, jobs[1..]); }
  }

  predicate Doubtful(v: Verdict) {
    v.Doubt? ==> v.reason == NoAnswer || v.reason == BadQueue || v.reason == UnknownTags || v.reason == PageLimit
  }

  lemma {:induction false} PagesDoubt(api: Api, runner: Runner, project: int, page: nat)
    requires Readable(runner) && 1 <= page <= PAGES + 1
    ensures Doubtful(ScanPages(api, runner, project, page))
    decreases PAGES + 1 - page
  {
    hide ScanJobs;
    if page <= PAGES {
      if api.pending(project, page).Jobs? { JobsDoubt(runner, api.pending(project, page).jobs); }
      PagesDoubt(api, runner, project, page + 1);
    }
  }

  lemma {:induction false} ScanDoubts(api: Api, runner: Runner, projects: seq<int>)
    requires Readable(runner)
    ensures Doubtful(ScanProjects(api, runner, projects))
  {
    hide ScanPages;
    if projects != [] {
      PagesDoubt(api, runner, projects[0], 1);
      ScanDoubts(api, runner, projects[1..]);
    }
  }

  /** The dispatcher answers no only for the configured runner, when it is paused or shows its tags, whether it takes
      untagged jobs and exactly the configured projects. */
  lemma NoHintNeedsScope(config: Config, api: Api)
    requires !HintAnswer(config, api)
    ensures api.runner.Some? && api.runner.value.id == config.runnerId
    ensures var runner := api.runner.value;
      runner.paused == Some(true) || (runner.paused == Some(false) && runner.tags.Some? && runner.runUntagged.Some?
        && runner.projects.Some? && multiset(runner.projects.value) == multiset(config.projectIds))
  {
    hide ScanProjects, Sorted;
    var runner := api.runner.value;
    PausedOrNot(runner);
    if runner.projects.Some? { SortedEqual(runner.projects.value, config.projectIds); }
  }

  // ---- the two readings agree ----

  /** Whatever the API answers, when the supervisor sees work the dispatcher does not overlook it. */
  lemma QueueImpliesHint(config: Config, api: Api)
    requires QueueAnswer(config, api) == Ok(true)
    ensures HintAnswer(config, api)
  {
    hide ScanPages, ScanProjects, Sorted;
    var runner, projects := api.runner.value, Sorted(config.projectIds);
    SortedSorts(config.projectIds);
    SameMembers(projects, config.projectIds);
    FirstNotQuiet(api, runner, projects);
    FirstNotQuiet(api, runner, config.projectIds);
    var k :| LeadsWith(api, runner, projects, k, Found);
    assert projects[k] in config.projectIds;
  }

  /** When the supervisor sees no work, the dispatcher agrees unless the runner lists no projects at all. */
  lemma QueueFalseMeetsHint(config: Config, api: Api)
    requires QueueAnswer(config, api) == Ok(false)
    ensures HintAnswer(config, api) <==> api.runner.value.paused == Some(false) && api.runner.value.projects.None?
  {
    hide ScanPages, ScanProjects, Sorted;
    var runner, projects := api.runner.value, Sorted(config.projectIds);
    if runner.paused == Some(false) {
      SortedSorts(config.projectIds);
      SameMembers(projects, config.projectIds);
      FirstNotQuiet(api, runner, projects);
      FirstNotQuiet(api, runner, config.projectIds);
      forall k | 0 <= k < |config.projectIds| ensures ScanPages(api, runner, config.projectIds[k], 1) == Quiet {
        assert config.projectIds[k] in projects;
        var j :| 0 <= j < |projects| && projects[j] == config.projectIds[k];
      }
    } else {
      assert runner.paused == Some(true) by { PausedOrNot(runner); }
    }
  }

  lemma PausedOrNot(runner: Runner)
    ensures runner.paused.None? || runner.paused == Some(true) || runner.paused == Some(false)
  {
    if runner.paused.Some? { assert runner.paused == Some(if runner.paused.value then true else false); }
  }

  /** On a stable queue the dispatcher answers no only when the runner is paused or nothing suits it. */
  lemma HintFalseMeansNothing(config: Config, api: Api, pending: int -> seq<Job>)
    requires Stable(api, pending) && !HintAnswer(config, api)
    ensures api.runner.Some?
    ensures api.runner.value.paused != Some(true) ==>
      && Readable(api.runner.value)
      && forall p :: p in config.projectIds ==> !AnySuits(api.runner.value, pending(p)) && |pending(p)| < 1000
  {
    hide ScanPages, ScanProjects, Sorted, AnySuits, Shown, Stable;
    var runner := api.runner.value;
    if runner.paused != Some(true) {
      FirstNotQuiet(api, runner, config.projectIds);
      forall p | p in config.projectIds ensures !AnySuits(runner, pending(p)) && |pending(p)| < 1000 {
        PagesSeeTheQueue(api, runner, p, pending);
        ShownSuits(runner, pending(p));
      }
    }
  }
}
