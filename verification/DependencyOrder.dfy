/** Dependency-ordered bring-up: the depth-first search of
    `resolve_bring_up_order`, proved against paths in the dependency graph. */
module DependencyOrder {
  import opened Wrappers

  datatype ServiceConfig = ServiceConfig(manager: string, dependsOn: seq<string>)

  type Config = map<string, ServiceConfig>

  datatype OrderError = Cyclic(name: string) | NotFound(name: string)

  // -------------------------------------------------------------- the graph

  ghost predicate IsPath(config: Config, p: seq<string>) {
    && |p| > 0
    && forall k :: 0 <= k < |p| - 1 ==> p[k] in config && p[k + 1] in config[p[k]].dependsOn
  }

  ghost predicate IsRoute(config: Config, p: seq<string>, a: string, b: string) {
    IsPath(config, p) && p[0] == a && p[|p| - 1] == b
  }

  /** `b` is `a` or one of its transitive dependencies. */
  ghost predicate Reaches(config: Config, a: string, b: string) {
    exists p :: IsRoute(config, p, a, b)
  }

  /** `b` is a transitive dependency of `a`, through at least one edge. */
  ghost predicate DependsOn(config: Config, a: string, b: string) {
    exists p :: IsRoute(config, p, a, b) && |p| > 1
  }

  ghost predicate AllExist(config: Config, target: string) {
    forall n :: Reaches(config, target, n) ==> n in config
  }

  ghost predicate Acyclic(config: Config, target: string) {
    forall n :: Reaches(config, target, n) ==> !DependsOn(config, n, n)
  }

  lemma ReachesSelf(config: Config, a: string)
    ensures Reaches(config, a, a)
  {
    assert IsRoute(config, [a], a, a);
  }

  lemma PathStep(config: Config, p: seq<string>, next: string)
    requires IsPath(config, p) && p[|p| - 1] in config && next in config[p[|p| - 1]].dependsOn
    ensures IsPath(config, p + [next])
  {}

  lemma PathSuffix(config: Config, p: seq<string>, k: nat)
    requires IsPath(config, p) && k < |p|
    ensures IsPath(config, p[k..]) && p[k..][0] == p[k]
  {}

  lemma PathReaches(config: Config, p: seq<string>, k: nat)
    requires IsPath(config, p) && k < |p|
    ensures Reaches(config, p[0], p[k])
  {
    assert IsRoute(config, p[..k + 1], p[0], p[k]);
  }

  function Elements(s: seq<string>): set<string> { set n | n in s }

  // ------------------------------------------------- dependency-first sequences

  predicate NoRepeats(s: seq<string>) {
    forall i, j :: 0 <= i < j < |s| ==> s[i] != s[j]
  }

  /** Every entry exists and comes after all its dependencies. */
  ghost predicate DependenciesFirst(config: Config, s: seq<string>) {
    forall i :: 0 <= i < |s| ==>
      s[i] in config && forall d :: d in config[s[i]].dependsOn ==> d in s[..i]
  }

  /** In such a sequence a dependency stands before whatever depends on it. */
  lemma {:induction false} RouteGoesBack(config: Config, s: seq<string>, p: seq<string>, i: nat)
    requires DependenciesFirst(config, s) && IsPath(config, p) && i < |s| && p[0] == s[i]
    ensures p[|p| - 1] in s[..i + 1]
    ensures |p| > 1 ==> p[|p| - 1] in s[..i]
    decreases |p|
  {
    if |p| > 1 {
      assert p[1] in s[..i];
      var j :| 0 <= j < i && s[j] == p[1];
      PathSuffix(config, p, 1);
      RouteGoesBack(config, s, p[1..], j);
      assert p[1..][|p| - 2] == p[|p| - 1];
    }
  }

  lemma AppendReady(config: Config, s: seq<string>, name: string)
    requires DependenciesFirst(config, s) && name in config && forall d :: d in config[name].dependsOn ==> d in s
    ensures DependenciesFirst(config, s + [name])
  {
    var t := s + [name];
    assert t[..|s|] == s;
    forall i | 0 <= i < |s| ensures t[..i] == s[..i] {}
  }

  lemma ClosedUnderReach(config: Config, s: seq<string>, a: string, b: string)
    requires DependenciesFirst(config, s) && a in s && Reaches(config, a, b)
    ensures b in s
  {
    var p :| IsRoute(config, p, a, b);
    var i :| 0 <= i < |s| && s[i] == a;
    RouteGoesBack(config, s, p, i);
  }

  lemma NoCycleInside(config: Config, s: seq<string>, a: string)
    requires DependenciesFirst(config, s) && NoRepeats(s) && a in s
    ensures !DependsOn(config, a, a)
  {
    if DependsOn(config, a, a) {
      var p :| IsRoute(config, p, a, a) && |p| > 1;
      var i :| 0 <= i < |s| && s[i] == a;
      RouteGoesBack(config, s, p, i);
    }
  }

  lemma DependencyComesBefore(config: Config, s: seq<string>, i: nat, j: nat)
    requires DependenciesFirst(config, s) && NoRepeats(s) && i < |s| && j < |s|
    requires DependsOn(config, s[i], s[j])
    ensures j < i
  {
    var p :| IsRoute(config, p, s[i], s[j]) && |p| > 1;
    RouteGoesBack(config, s, p, i);
  }

  // ------------------------------------------------------------------ the listed order

  /** Up to where dependency `k` stands, everything new is needed by it or by one listed before it. */
  ghost predicate Led(config: Config, before: seq<string>, after: seq<string>, dependencies: seq<string>, k: nat) {
    k < |dependencies| && exists cut: nat :: Covers(config, before, after, dependencies, k, cut)
  }

  ghost predicate Covers(config: Config, before: seq<string>, after: seq<string>, dependencies: seq<string>, k: nat, cut: nat)
    requires k < |dependencies|
  {
    && |before| <= cut <= |after| && dependencies[k] in after[..cut]
    && forall m :: m in after[|before|..cut] ==> NeededBy(config, dependencies, k, m)
  }

  ghost predicate NeededBy(config: Config, dependencies: seq<string>, k: nat, m: string)
    requires k < |dependencies|
  {
    exists i :: 0 <= i <= k && Reaches(config, dependencies[i], m)
  }

  lemma LedStays(config: Config, before: seq<string>, after: seq<string>, more: seq<string>, dependencies: seq<string>, k: nat)
    requires Led(config, before, after, dependencies, k) && after <= more
    ensures Led(config, before, more, dependencies, k)
  {
    var cut: nat :| Covers(config, before, after, dependencies, k, cut);
    assert more[..cut] == after[..cut] && more[|before|..cut] == after[|before|..cut];
    assert Covers(config, before, more, dependencies, k, cut);
  }

  lemma ReachesThrough(config: Config, name: string, dependency: string, m: string)
    requires name in config && dependency in config[name].dependsOn && Reaches(config, dependency, m)
    ensures Reaches(config, name, m)
  {
    var p :| IsRoute(config, p, dependency, m);
    assert IsRoute(config, [name] + p, name, m);
  }

  /** Of two dependencies the one listed later stands first only when one listed up to the other needs it. */
  lemma ListedOrderIsKept(config: Config, order: seq<string>, dependencies: seq<string>, i: nat, p: nat, q: nat)
    requires Led(config, [], order, dependencies, i) && NoRepeats(order)
    requires p < q < |order| && order[q] == dependencies[i]
    ensures NeededBy(config, dependencies, i, order[p])
  {
    var cut: nat :| Covers(config, [], order, dependencies, i, cut);
    assert order[p] in order[0..cut];
  }

  // ------------------------------------------------------------------ the search

  /** The error names a real reachable cycle, or a reachable service that does not exist. */
  ghost predicate Genuine(config: Config, root: string, e: OrderError) {
    Reaches(config, root, e.name) &&
    match e
    case Cyclic(name) => DependsOn(config, name, name)
    case NotFound(name) => name !in config
  }

  class DependencyWalk {
    var visited: set<string>
    var stack: set<string>
    var ordered: seq<string>

    constructor ()
      ensures visited == {} && stack == {} && ordered == []
    {
      visited, stack, ordered := {}, {}, [];
    }

    ghost predicate Valid(config: Config, root: string)
      reads this
    {
      && NoRepeats(ordered)
      && DependenciesFirst(config, ordered)
      && visited == Elements(ordered)
      && (forall n :: n in ordered ==> Reaches(config, root, n))
      && visited !! stack
    }

    /** `trail` is the chain of calls: the services on the stack, then `name`. */
    ghost predicate OnTrail(config: Config, root: string, name: string, trail: seq<string>)
      reads this
    {
      && IsRoute(config, trail, root, name)
      && stack == Elements(trail[..|trail| - 1])
    }

    lemma TrailReaches(config: Config, root: string, name: string, trail: seq<string>)
      requires OnTrail(config, root, name, trail)
      ensures Reaches(config, root, name)
    {
      PathReaches(config, trail, |trail| - 1);
    }

    lemma TrailCloses(config: Config, root: string, name: string, trail: seq<string>)
      requires OnTrail(config, root, name, trail) && name in stack
      ensures DependsOn(config, name, name)
    {
      var k :| 0 <= k < |trail| - 1 && trail[k] == name;
      PathSuffix(config, trail, k);
      assert IsRoute(config, trail[k..], name, name);
    }

    lemma TrailGrows(config: Config, root: string, name: string, trail: seq<string>, dependency: string, was: set<string>)
      requires IsRoute(config, trail, root, name) && was == Elements(trail[..|trail| - 1])
      requires name in config && dependency in config[name].dependsOn && stack == was + {name}
      ensures OnTrail(config, root, dependency, trail + [dependency])
    {
      PathStep(config, trail, dependency);
      assert (trail + [dependency])[..|trail|] == trail;
      assert trail == trail[..|trail| - 1] + [name];
    }

    lemma NextIsLed(config: Config, before: seq<string>, sofar: seq<string>, now: seq<string>, dependencies: seq<string>, i: nat)
      requires i < |dependencies| && before <= sofar <= now && dependencies[i] in now
      requires forall k :: 0 <= k < i ==> Led(config, before, sofar, dependencies, k)
      requires forall m :: m in sofar[|before|..] ==> i > 0 && NeededBy(config, dependencies, i - 1, m)
      requires forall m :: m in now[|sofar|..] ==> Reaches(config, dependencies[i], m)
      ensures forall k :: 0 <= k <= i ==> Led(config, before, now, dependencies, k)
      ensures forall m :: m in now[|before|..] ==> NeededBy(config, dependencies, i, m)
    {
      assert now[|before|..] == sofar[|before|..] + now[|sofar|..];
      forall k | 0 <= k < i ensures Led(config, before, now, dependencies, k) {
        LedStays(config, before, sofar, now, dependencies, k);
      }
      assert now[..|now|] == now;
      assert Covers(config, before, now, dependencies, i, |now|);
    }

    lemma AllAreReached(config: Config, name: string, before: seq<string>, now: seq<string>)
      requires name in config && before <= now
      requires forall m :: m in now[|before|..] ==>
        |config[name].dependsOn| > 0 && NeededBy(config, config[name].dependsOn, |config[name].dependsOn| - 1, m)
      ensures forall m :: m in (now + [name])[|before|..] ==> Reaches(config, name, m)
    {
      assert (now + [name])[|before|..] == now[|before|..] + [name];
      ReachesSelf(config, name);
      var dependencies := config[name].dependsOn;
      forall m | m in now[|before|..] ensures Reaches(config, name, m) {
        var i :| 0 <= i < |dependencies| && Reaches(config, dependencies[i], m);
        ReachesThrough(config, name, dependencies[i], m);
      }
    }

    method Visit(config: Config, name: string, ghost root: string, ghost trail: seq<string>)
      returns (r: Result<(), OrderError>)
      requires Valid(config, root) && OnTrail(config, root, name, trail)
      modifies this
      ensures r.Err? ==> Genuine(config, root, r.error)
      ensures r.Ok? ==> Valid(config, root) && stack == old(stack) && name in visited
      ensures r.Ok? ==> old(ordered) <= ordered
      ensures r.Ok? && name !in old(visited) ==> ordered[|ordered| - 1] == name
      ensures r.Ok? ==> forall m :: m in ordered[|old(ordered)|..] ==> Reaches(config, name, m)
      ensures r.Ok? && name !in old(visited) ==>
        forall k :: 0 <= k < |config[name].dependsOn| ==> Led(config, old(ordered), ordered, config[name].dependsOn, k)
      decreases config.Keys - stack
    {
      TrailReaches(config, root, name, trail);
      if name in visited {
        return Ok(());
      }
      if name in stack {
        TrailCloses(config, root, name, trail);
        return Err(Cyclic(name));
      }
      stack := stack + {name};
      if name !in config {
        return Err(NotFound(name));
      }
      var dependencies := config[name].dependsOn;
      for i := 0 to |dependencies|
        invariant Valid(config, root) && stack == old(stack) + {name} && old(ordered) <= ordered
        invariant forall k :: 0 <= k < i ==> dependencies[k] in visited
        invariant forall k :: 0 <= k < i ==> Led(config, old(ordered), ordered, dependencies, k)
        invariant forall m :: m in ordered[|old(ordered)|..] ==> i > 0 && NeededBy(config, dependencies, i - 1, m)
      {
        TrailGrows(config, root, name, trail, dependencies[i], old(stack));
        ghost var sofar := ordered;
        var visit := Visit(config, dependencies[i], root, trail + [dependencies[i]]);
        if visit.Err? {
          return visit;
        }
        NextIsLed(config, old(ordered), sofar, ordered, dependencies, i);
      }
      AllAreReached(config, name, old(ordered), ordered);
      forall k | 0 <= k < |dependencies| ensures Led(config, old(ordered), ordered + [name], dependencies, k) {
        LedStays(config, old(ordered), ordered, ordered + [name], dependencies, k);
      }
      AppendReady(config, ordered, name);
      stack := stack - {name};
      visited := visited + {name};
      ordered := ordered + [name];
      assert old(stack) + {name} - {name} == old(stack);
      return Ok(());
    }
  }

  /** Succeeds exactly when everything reachable exists and lies on no cycle, with exactly the
      reachable services, once each, dependencies first, the target last. */
  method ResolveBringUpOrder(config: Config, target: string) returns (r: Result<seq<string>, OrderError>)
    ensures r.Ok? <==> AllExist(config, target) && Acyclic(config, target)
    ensures r.Ok? ==> NoRepeats(r.value) && DependenciesFirst(config, r.value)
    ensures r.Ok? ==> forall n :: n in r.value <==> Reaches(config, target, n)
    ensures r.Ok? ==> r.value != [] && r.value[|r.value| - 1] == target
    ensures r.Ok? ==>
      forall k :: 0 <= k < |config[target].dependsOn| ==> Led(config, [], r.value, config[target].dependsOn, k)
    ensures r.Err? ==> Genuine(config, target, r.error)
  {
    var walk := new DependencyWalk();
    assert IsRoute(config, [target], target, target);
    assert [target][..0] == [];
    var visit := walk.Visit(config, target, target, [target]);
    if visit.Err? {
      return Err(visit.error);
    }
    forall n | Reaches(config, target, n) ensures n in walk.ordered && !DependsOn(config, n, n) {
      ClosedUnderReach(config, walk.ordered, target, n);
      NoCycleInside(config, walk.ordered, n);
    }
    r := Ok(walk.ordered);
  }
}
