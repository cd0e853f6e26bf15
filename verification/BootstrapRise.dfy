/**
 * What calm runs achieve: the serving build only rises, so that retirements are fewer than the builds in
 * play, and shims of one build spawn one daemon between them.
 */
module BootstrapRise {
  import opened Prelude
  import opened Bootstrap
  import opened BootstrapSafety
  import opened BootstrapSteady
  import opened BootstrapCalm

  // ---- retirements ----

  /** The builds that served, in order, each supersede the one before; those retired are all of them,
      or all but the one that serves now. */
  lemma ServingBuildRises(s: State)
    requires CalmReachable(s)
    ensures Chain(s.history.bound)
    ensures s.history.retired == s.history.bound
            || (s.history.bound != [] && s.history.retired == s.history.bound[..|s.history.bound| - 1])
  {
    CalmReachableInv(s);
  }

  /** No two builds of one age carry different plugins. */
  ghost predicate OnePluginPerAge(builds: set<Build>)
  {
    forall a, b :: a in builds && b in builds && a.mtime == b.mtime ==> a.plugin == b.plugin
  }

  ghost predicate StrictOrderOn(builds: set<Build>)
  {
    && (forall a, b :: a in builds && b in builds && Supersedes(a, b) ==> !Supersedes(b, a))
    && (forall a, b, c :: a in builds && b in builds && c in builds && Supersedes(a, b) && Supersedes(b, c)
          ==> Supersedes(a, c))
  }

  /** "Newer wins" is a strict order exactly when age decides: two executables of one mtime with
      different plugins supersede each other. */
  lemma StrictOrderIffOnePluginPerAge(builds: set<Build>)
    ensures StrictOrderOn(builds) <==> OnePluginPerAge(builds)
  {
    if StrictOrderOn(builds) {
      forall a, b | a in builds && b in builds && a.mtime == b.mtime
        ensures a.plugin == b.plugin
      {
        assert Supersedes(a, b) <==> a.plugin != b.plugin;
        assert Supersedes(b, a) <==> a.plugin != b.plugin;
      }
    }
  }

  /** A chain of builds, when age decides, strictly rises in age. */
  lemma {:induction false} ChainRises(h: seq<Build>, builds: set<Build>, i: nat, j: nat)
    requires Chain(h) && OnePluginPerAge(builds) && (forall b :: b in h ==> b in builds)
    requires i < j < |h|
    ensures h[i].mtime < h[j].mtime
    decreases j
  {
    assert Supersedes(h[j], h[j - 1]);
    assert h[j] in builds && h[j - 1] in builds;
    if i < j - 1 { ChainRises(h, builds, i, j - 1); }
  }

  lemma {:induction false} DistinctFit<T>(h: seq<T>, pool: set<T>)
    requires forall x :: x in h ==> x in pool
    requires forall i, j :: 0 <= i < j < |h| ==> h[i] != h[j]
    ensures |h| <= |pool|
    decreases |h|
  {
    if h != [] {
      var n := |h| - 1;
      assert h[n] in pool;
      assert forall x :: x in h[..n] ==> x in h;
      DistinctFit(h[..n], pool - {h[n]});
    }
  }

  /** A chain over the builds in play is no longer than their number. */
  lemma ChainFits(h: seq<Build>, builds: set<Build>)
    requires Chain(h) && OnePluginPerAge(builds) && (forall b :: b in h ==> b in builds)
    ensures |h| <= |builds|
  {
    forall i, j | 0 <= i < j < |h|
      ensures h[i] != h[j]
    {
      ChainRises(h, builds, i, j);
    }
    DistinctFit(h, builds);
  }

  /** The build that is to serve next, once the last one was retired. */
  lemma NextInChain(s: State) returns (next: Build)
    requires CalmInv(s) && !Serves(s) && s.history.bound != []
    ensures next in ShimBuilds(s) && Supersedes(next, Last(s.history.bound))
    ensures s.history.retired == s.history.bound
  {
    if s.lock.Some? {
      next := s.procs[s.lock.value].build;
    } else {
      next := s.procs[s.boot.value].build;
      assert IsShim(s, s.boot.value);
    }
  }

  /** Retirements are fewer than the distinct builds in play. */
  lemma RetirementsBounded(s: State)
    requires CalmReachable(s) && OnePluginPerAge(ShimBuilds(s)) && s.history.retired != []
    ensures |s.history.retired| < |ShimBuilds(s)|
  {
    CalmReachableInv(s);
    ServingBuildRises(s);
    CalmBounded(s);
  }

  lemma CalmBounded(s: State)
    requires CalmInv(s) && OnePluginPerAge(ShimBuilds(s)) && s.history.retired != []
    ensures |s.history.retired| < |ShimBuilds(s)|
  {
    var bound := s.history.bound;
    if Serves(s) {
      ChainFits(bound, ShimBuilds(s));
    } else {
      var next := NextInChain(s);
      ChainFits(bound + [next], ShimBuilds(s));
    }
  }

  // ---- spawns ----

  /** A shim spawns only when no daemon serves, or the one that serves is one it supersedes. */
  lemma SpawnsOverNoUsableDaemon(s: State, p: Pid, child: Pid)
    requires CalmReachable(s) && Enabled(s, Spawn(p, child))
    ensures forall d :: d in s.procs && IsListening(s.procs[d]) ==> Supersedes(s.procs[p].build, s.procs[d].build)
  {
    CalmReachableInv(s);
    assert ShimStory(s, p);
    forall d | d in s.procs && IsListening(s.procs[d])
      ensures s.lock == Some(d)
    {
      assert HoldsLock(s.procs[d]);
    }
  }

  ghost predicate AllOfBuild(s: State, build: Build)
  {
    forall p :: IsShim(s, p) ==> s.procs[p].build == build
  }

  /** One spawn so far means it has bound or its spawner still waits; none means no daemon at all. */
  ghost predicate OneSpawnStory(s: State)
  {
    && s.history.spawned <= 1
    && (s.history.spawned == 0 ==> s.history.bound == [] && forall d :: d in s.procs ==> !s.procs[d].Daemon?)
    && (s.history.spawned == 1 ==>
          s.history.bound != [] || exists p :: IsShim(s, p) && s.procs[p].pc.Waiting?)
  }

  /** Shims of one build supersede nothing: what bound is `build`, and the first to bind is never retired. */
  lemma SameBuildNeverRetires(s: State, build: Build)
    requires CalmInv(s) && AllOfBuild(s, build)
    ensures s.history.retired == []
    ensures s.history.bound != [] ==> Serves(s) && s.procs[s.lock.value].build == build
  {
    forall b | b in ShimBuilds(s)
      ensures b == build
    {
      var p :| p in s.procs && s.procs[p].Shim? && s.procs[p].build == b;
      assert IsShim(s, p);
    }
    ChainFits(s.history.bound, {build});
    assert !Supersedes(build, build);
    assert s.history.bound != [] ==> Last(s.history.bound) in s.history.bound;
  }

  /** Only a spawn adds a daemon, and only a daemon's step adds a build to those that bound. */
  lemma NewDaemons(s: State, l: Label)
    requires Enabled(s, l) && CalmLabel(s, l)
    ensures Apply(s, l).history.spawned == s.history.spawned + if l.Spawn? then 1 else 0
    ensures s.history.bound != [] ==> Apply(s, l).history.bound != []
    ensures !l.DaemonStep? ==> Apply(s, l).history.bound == s.history.bound
    ensures !l.Spawn? ==> forall d :: IsDaemon(Apply(s, l), d) ==> IsDaemon(s, d)
  {
  }

  /** A shim that waits for its daemon goes on waiting while nothing listens and no other shim is in its
      locked section. */
  lemma WaiterStays(s: State, l: Label, p: Pid)
    requires Enabled(s, l) && CalmLabel(s, l) && !l.Spawn?
    requires IsShim(s, p) && s.procs[p].pc.Waiting? && !Listening(s)
    requires l.ShimStep? || l.StopFails? ==> l.pid == p || !InLockedSection(s.procs[l.pid].pc)
    ensures IsShim(Apply(s, l), p) && Apply(s, l).procs[p].pc.Waiting?
  {
  }

  /** While one shim waits, no other is in its locked section. */
  lemma WaiterAlone(s: State, p: Pid, q: Pid)
    requires Inv(s) && IsShim(s, p) && InLockedSection(s.procs[p].pc)
    requires IsShim(s, q) && InLockedSection(s.procs[q].pc)
    ensures p == q
  {
    assert HoldsBoot(s.procs[p]) && HoldsBoot(s.procs[q]);
  }

  lemma OneSpawnStep(s: State, l: Label, build: Build)
    requires CalmInv(s) && Enabled(s, l) && CalmLabel(s, l)
    requires AllOfBuild(s, build) && OneSpawnStory(s)
    ensures OneSpawnStory(Apply(s, l))
  {
    NewDaemons(s, l);
    SameBuildNeverRetires(s, build);
    if l.Spawn? {
      FirstSpawn(s, l, build);
    } else if s.history.spawned == 1 && s.history.bound == [] {
      var p :| IsShim(s, p) && s.procs[p].pc.Waiting?;
      ListeningIsServing(s);
      if (l.ShimStep? || l.StopFails?) && InLockedSection(s.procs[l.pid].pc) {
        WaiterAlone(s, p, l.pid);
      }
      WaiterStays(s, l, p);
    } else if s.history.spawned == 0 {
      assert forall d :: d in Apply(s, l).procs && Apply(s, l).procs[d].Daemon? ==> IsDaemon(Apply(s, l), d);
    }
  }

  lemma FirstSpawn(s: State, l: Label, build: Build)
    requires CalmInv(s) && Enabled(s, l) && l.Spawn?
    requires AllOfBuild(s, build) && OneSpawnStory(s)
    requires s.history.bound != [] ==> Serves(s) && s.procs[s.lock.value].build == build
    ensures s.history.spawned == 0
    ensures IsShim(Apply(s, l), l.pid) && Apply(s, l).procs[l.pid].pc.Waiting?
  {
    assert ShimStory(s, l.pid);
    if s.history.spawned == 1 && s.history.bound == [] {
      var p :| IsShim(s, p) && s.procs[p].pc.Waiting?;
      WaiterAlone(s, p, l.pid);
    }
  }

  lemma AllOfBuildBefore(s: State, l: Label, build: Build)
    requires Enabled(s, l) && AllOfBuild(Apply(s, l), build)
    ensures AllOfBuild(s, build)
  {
    forall p | IsShim(s, p)
      ensures s.procs[p].build == build
    {
      assert IsShim(Apply(s, l), p);
    }
  }

  lemma {:induction false} OneSpawnRun(labels: seq<Label>, build: Build)
    requires RunOf(CalmLabel, labels) && Exec(Init(), labels).Some? && AllOfBuild(Exec(Init(), labels).value, build)
    ensures OneSpawnStory(Exec(Init(), labels).value)
  {
    if labels != [] {
      var n := |labels| - 1;
      var before := Exec(Init(), labels[..n]).value;
      AllOfBuildBefore(before, labels[n], build);
      OneSpawnRun(labels[..n], build);
      CalmRunInv(labels[..n]);
      OneSpawnStep(before, labels[n], build);
    }
  }

  /** Any number of shims of one build on a cold project spawn at most one daemon between them, and
      exactly one once any of them is connected. */
  lemma SameBuildSpawnsOnce(labels: seq<Label>, s: State, build: Build, p: Pid)
    requires RunOf(CalmLabel, labels) && Exec(Init(), labels) == Some(s) && AllOfBuild(s, build)
    ensures s.history.spawned <= 1 && s.history.retired == []
    ensures IsShim(s, p) && s.procs[p].pc == Finished(Connected) ==> s.history.spawned == 1
  {
    CalmRunInv(labels);
    OneSpawnRun(labels, build);
    SameBuildNeverRetires(s, build);
    if IsShim(s, p) { assert ShimStory(s, p); }
  }
}
