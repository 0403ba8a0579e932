/** What the availability theorem of several nodes cannot do without. */
module FleetHazards {
  import opened PodTree
  import opened PodTemplate
  import opened Stages
  import opened Cluster
  import opened Protocol
  import opened MultiNode
  import opened Passes
  import opened Detection
  import opened Placing
  import opened Standby
  import Convergence
  import Deadlocks

  /** No node answers. */
  predicate Dark(f: Fleet, c: Cluster) {
    forall n | n in f.Nodes() :: n in c.sets ==> !c.sets[n].ready
  }

  /** Admissible steps lead to a state where no node answers; with `smooth`, every call on the way
      succeeds and the operator stays up. */
  ghost predicate CanGoDark(p: Platform, f: Fleet, s: System, smooth: bool) {
    WellFormed(s.at) && exists acts: seq<Act> :: DarkBy(p, f, s, smooth, acts)
  }

  ghost predicate DarkBy(p: Platform, f: Fleet, s: System, smooth: bool, acts: seq<Act>)
    requires WellFormed(s.at)
  {
    AdmissibleRun(p, f, s, acts) && (forall a | a in acts :: Allowed(smooth, a)) && Dark(f, Run(p, s, acts).c)
  }

  predicate Allowed(smooth: bool, a: Act) {
    smooth ==> !a.Crash? && (a.Op? ==> a.ok)
  }

  lemma DarkNow(p: Platform, f: Fleet, s: System, smooth: bool)
    requires WellFormed(s.at) && Dark(f, s.c)
    ensures CanGoDark(p, f, s, smooth)
  {
    assert DarkBy(p, f, s, smooth, []);
  }

  lemma DarkAfter(p: Platform, f: Fleet, s: System, a: Act, smooth: bool)
    requires WellFormed(s.at) && Admissible(p, f, s, a) && Allowed(smooth, a) && CanGoDark(p, f, Step(p, s, a), smooth)
    ensures CanGoDark(p, f, s, smooth)
  {
    var acts: seq<Act> :| DarkBy(p, f, Step(p, s, a), smooth, acts);
    Deadlocks.RunOfOne(p, s, a, acts);
    assert DarkBy(p, f, s, smooth, [a] + acts);
  }

  lemma {:induction false} DarkAfterCalls(p: Platform, f: Fleet, s: System, n: nat, smooth: bool)
    requires WellFormed(s.at) && CanGoDark(p, f, Calls(p, s, n), smooth)
    ensures CanGoDark(p, f, s, smooth)
    decreases n
  {
    if n > 0 {
      DarkAfterCalls(p, f, Call(p, s, true), n - 1, smooth);
      DarkAfter(p, f, s, Op(true), smooth);
    }
  }

  lemma DarkAfterBecoming(p: Platform, f: Fleet, s: System, t: System, smooth: bool)
    requires Becomes(p, s, t) && CanGoDark(p, f, t, smooth)
    ensures CanGoDark(p, f, s, smooth)
  {
    var n: nat :| BecomesIn(p, s, t, n);
    DarkAfterCalls(p, f, s, n, smooth);
  }

  predicate SecondariesDown(f: Fleet, c: Cluster) {
    forall n | n in f.secondaries :: n in c.sets ==> !c.sets[n].ready
  }

  /** The main node was rewritten while no secondary answers. */
  lemma RestartGoesDark(p: Platform, f: Fleet, s: System, smooth: bool)
    requires f.Valid() && WellFormed(s.at) && SecondariesDown(f, s.c)
    requires f.main in s.c.sets && s.c.sets[f.main].pod != s.c.sets[f.main].template
    ensures CanGoDark(p, f, s, smooth)
  {
    var t := Step(p, s, World(Observe(f.main)));
    var u := Step(p, t, World(PodDown(f.main)));
    DarkNow(p, f, u, smooth);
    DarkAfter(p, f, t, World(PodDown(f.main)), smooth);
    DarkAfter(p, f, s, World(Observe(f.main)), smooth);
  }

  /** No secondary answers, and the main node still has to be written. */
  ghost predicate Exposed(p: Platform, f: Fleet, c: Cluster, inst: Instance) {
    && f.Valid() && Member(f, inst) && SecondariesDown(f, c)
    && f.main in c.sets && Settled(c.sets[f.main]) && c.sets[f.main].serviceName == f.services[f.main]
    && !NodeConforms(p, f, inst, f.main, c.sets[f.main])
  }

  lemma MainWriteGoesDark(p: Platform, f: Fleet, c: Cluster, inst: Instance, smooth: bool)
    requires Exposed(p, f, c, inst)
    ensures CanGoDark(p, f, System(c, MainWrite(inst)), smooth)
  {
    var s := System(c, MainWrite(inst));
    assert inst.main in AllNodes(inst);
    CallByGroup(p, s, true);
    RestartGoesDark(p, f, CallMain(p, s, true), smooth);
    DarkAfter(p, f, s, Op(true), smooth);
  }

  /** The builder pass writes the main node without a look at the secondaries. */
  lemma BuilderGoesDark(p: Platform, f: Fleet, c: Cluster, inst: Instance, smooth: bool)
    requires Exposed(p, f, c, inst)
    ensures CanGoDark(p, f, System(c, Support(inst)), smooth)
  {
    var d := c.(support := inst.support);
    var s, t := System(c, Support(inst)), System(d, MainHook(inst));
    assert inst.main in AllNodes(inst);
    MainWriteGoesDark(p, f, d, inst, smooth);
    CallByGroup(p, t, true);
    DarkAfter(p, f, t, Op(true), smooth);
    CallByGroup(p, s, true);
    DarkAfter(p, f, s, Op(true), smooth);
  }

  lemma StartGoesDark(p: Platform, f: Fleet, c: Cluster, inst: Instance, smooth: bool)
    requires Exposed(p, f, c, inst) && c.checkpoint.None?
    ensures CanGoDark(p, f, System(c, Persist(inst, MainShuttingDown)), smooth)
  {
    var d := c.(checkpoint := Some(MainShuttingDown));
    AskBecomes(p, inst, c, MainShuttingDown);
    BuilderGoesDark(p, f, d, inst, smooth);
    DarkAfterBecoming(p, f, System(c, Persist(inst, MainShuttingDown)), System(d, Support(inst)), smooth);
  }

  lemma FleetOpens(p: Platform, f: Fleet, c: Cluster, inst: Instance)
    requires f.Valid() && Member(f, inst) && c.checkpoint.None?
    ensures Opened(p, inst, c) in {Support(inst), Persist(inst, MainShuttingDown)}
  {
    var n :| n in f.secondaries;
    assert n in SecondaryNames(inst);
  }

  /** Without a checkpoint the next pass gets to the builders, whether or not the detector starts
      an upgrade: the upgrade of several nodes begins with MainShuttingDown. */
  lemma FreshPassGoesDark(p: Platform, f: Fleet, s: System, inst: Instance, smooth: bool)
    requires s.at.Rest? && s.c.teamcity == Some(inst) && !inst.deleting && s.c.checkpoint.None?
    requires Exposed(p, f, s.c, inst)
    ensures CanGoDark(p, f, s, smooth)
  {
    FleetOpens(p, f, s.c, inst);
    BuilderGoesDark(p, f, s.c, inst, smooth);
    StartGoesDark(p, f, s.c, inst, smooth);
    PassOpens(p, inst, s.c, s.at.outcome);
    DarkAfterBecoming(p, f, s, System(s.c, Opened(p, inst, s.c)), smooth);
  }

  /** At any stage, reads that fail send the next pass straight to the builders. */
  lemma SwallowedErrorsGoDark(p: Platform, f: Fleet, s: System, inst: Instance)
    requires s.at.Rest? && s.c.teamcity == Some(inst) && !inst.deleting
    requires CanGoDark(p, f, System(s.c, Support(inst)), false)
    ensures CanGoDark(p, f, s, false)
  {
    var t := System(s.c, ReadOngoing(inst));
    CallByGroup(p, t, false);
    if inst.zeroDowntime {
      var d := System(s.c, Detect(inst, false, 0));
      CallByGroup(p, d, false);
      DarkAfter(p, f, d, Op(false), false);
    }
    DarkAfter(p, f, t, Op(false), false);
    DarkAfter(p, f, s, Op(true), false);
  }

  // ---- Nodes that are due to restart ----

  /** The cluster after every node in `names` has stopped, and nothing else has happened. */
  ghost predicate Stopped(c: Cluster, d: Cluster, names: set<string>) {
    && d == c.(sets := d.sets)
    && (forall n | n !in names :: SameAt(c, d, n))
    && (forall n | n in names :: n in d.sets && !d.sets[n].ready)
  }

  predicate CanStop(c: Cluster, n: string) {
    n in c.sets && 0 < c.sets[n].observed && Restarting(c.sets[n])
  }

  lemma StopOne(p: Platform, f: Fleet, s: System, n: string, smooth: bool) returns (d: Cluster)
    requires WellFormed(s.at) && CanStop(s.c, n)
    ensures Stopped(s.c, d, {n})
    ensures CanGoDark(p, f, System(d, s.at), smooth) ==> CanGoDark(p, f, s, smooth)
  {
    var x := s.c.sets[n];
    if !x.ready {
      d := s.c;
    } else if x.update != x.pod {
      d := Happen(s.c, PodDown(n));
      if CanGoDark(p, f, System(d, s.at), smooth) {
        DarkAfter(p, f, s, World(PodDown(n)), smooth);
      }
    } else {
      var t := Step(p, s, World(Observe(n)));
      d := Happen(t.c, PodDown(n));
      if CanGoDark(p, f, System(d, s.at), smooth) {
        DarkAfter(p, f, t, World(PodDown(n)), smooth);
        DarkAfter(p, f, s, World(Observe(n)), smooth);
      }
    }
  }

  lemma StoppedThen(c: Cluster, d: Cluster, e: Cluster, n: string, names: set<string>)
    requires Stopped(c, d, {n}) && Stopped(d, e, names - {n}) && n in names
    ensures Stopped(c, e, names)
  {
    assert SameAt(d, e, n);
    forall m | m !in names ensures SameAt(c, e, m) {
      assert SameAt(c, d, m) && SameAt(d, e, m);
    }
    forall m | m in names ensures m in e.sets && !e.sets[m].ready {
      assert m == n || m in names - {n};
    }
  }

  /** The controller may take all of them down at once. */
  lemma {:induction false} StopAll(p: Platform, f: Fleet, s: System, names: set<string>, smooth: bool)
    returns (d: Cluster)
    requires WellFormed(s.at) && forall n | n in names :: CanStop(s.c, n)
    ensures Stopped(s.c, d, names)
    ensures CanGoDark(p, f, System(d, s.at), smooth) ==> CanGoDark(p, f, s, smooth)
    decreases |names|
  {
    if names == {} {
      d := s.c;
    } else {
      var n :| n in names;
      var e := StopOne(p, f, s, n, smooth);
      forall m | m in names - {n} ensures CanStop(e, m) {
        assert SameAt(s.c, e, m);
      }
      d := StopAll(p, f, System(e, s.at), names - {n}, smooth);
      StoppedThen(s.c, e, d, n, names);
    }
  }

  // ---- A main node that is rolled out ----

  predicate SecondariesDue(f: Fleet, c: Cluster) {
    forall n | n in f.secondaries :: CanStop(c, n)
  }

  /** All secondaries are due to restart, and the spec asks for a rewrite of the main node. */
  lemma DueGoesDark(p: Platform, f: Fleet, s: System, inst: Instance, smooth: bool)
    requires s.at.Rest? && s.c.teamcity == Some(inst) && !inst.deleting && (smooth ==> s.c.checkpoint.None?)
    requires f.Valid() && Member(f, inst) && SecondariesDue(f, s.c)
    requires f.main in s.c.sets && Settled(s.c.sets[f.main]) && s.c.sets[f.main].serviceName == f.services[f.main]
    requires !NodeConforms(p, f, inst, f.main, s.c.sets[f.main])
    ensures CanGoDark(p, f, s, smooth)
  {
    var d := StopAll(p, f, s, f.secondaries, smooth);
    assert SameAt(s.c, d, f.main);
    if smooth {
      FreshPassGoesDark(p, f, System(d, s.at), inst, smooth);
    } else {
      BuilderGoesDark(p, f, d, inst, smooth);
      SwallowedErrorsGoDark(p, f, System(d, s.at), inst);
    }
  }

  // ---- A main node whose status misreports ----

  /** Of all StatefulSets only the main one differs, and in its status alone. */
  predicate OnlyMainMoved(f: Fleet, c: Cluster, d: Cluster) {
    && f.main in c.sets && f.main in d.sets && d == c.(sets := c.sets[f.main := d.sets[f.main]])
    && var x, y := c.sets[f.main], d.sets[f.main];
    && y.template == x.template && y.serviceName == x.serviceName && y.role == x.role
    && y.terminating == x.terminating && y.generation == x.generation && 0 < y.observed <= y.generation
  }

  lemma MainEventMoves(f: Fleet, c: Cluster, e: Event)
    requires f.main in c.sets && Stands(c.sets[f.main].serviceName, c.sets[f.main])
    requires e in {Observe(f.main), PodDown(f.main), PodUp(f.main), Promote(f.main)}
    ensures OnlyMainMoved(f, c, Happen(c, e))
  {
    var d := Happen(c, e);
    assert d.sets == c.sets[f.main := d.sets[f.main]];
  }

  /** The pod comes up with the update revision. */
  lemma Replace(p: Platform, f: Fleet, s: System) returns (d: Cluster)
    requires WellFormed(s.at) && f.main in s.c.sets && Stands(s.c.sets[f.main].serviceName, s.c.sets[f.main])
    ensures OnlyMainMoved(f, s.c, d)
    ensures d.sets[f.main] == s.c.sets[f.main].(ready := true, pod := s.c.sets[f.main].update)
    ensures CanGoDark(p, f, System(d, s.at), false) ==> CanGoDark(p, f, s, false)
  {
    var t := Step(p, s, World(PodDown(f.main)));
    d := Happen(t.c, PodUp(f.main));
    MainEventMoves(f, s.c, PodDown(f.main));
    MainEventMoves(f, t.c, PodUp(f.main));
    if CanGoDark(p, f, System(d, s.at), false) {
      DarkAfter(p, f, t, World(PodUp(f.main)), false);
      DarkAfter(p, f, s, World(PodDown(f.main)), false);
    }
  }

  /** The pod has left the template `w` that the status still calls current. */
  predicate LeftBehind(x: StatefulSet, w: Template) {
    x.current == w && x.ready && x.pod == x.update == x.template && x.template != w
  }

  lemma CurrentIsLeft(p: Platform, f: Fleet, s: System, w: Template) returns (d: Cluster)
    requires WellFormed(s.at) && f.main in s.c.sets && Stands(s.c.sets[f.main].serviceName, s.c.sets[f.main])
    requires s.c.sets[f.main].current == w && s.c.sets[f.main].template != w
    ensures OnlyMainMoved(f, s.c, d) && LeftBehind(d.sets[f.main], w)
    ensures CanGoDark(p, f, System(d, s.at), false) ==> CanGoDark(p, f, s, false)
  {
    var t := Step(p, s, World(Observe(f.main)));
    MainEventMoves(f, s.c, Observe(f.main));
    d := Replace(p, f, t);
    if CanGoDark(p, f, System(d, s.at), false) {
      DarkAfter(p, f, s, World(Observe(f.main)), false);
    }
  }

  lemma UpdateIsLeft(p: Platform, f: Fleet, s: System, w: Template) returns (d: Cluster)
    requires WellFormed(s.at) && f.main in s.c.sets && Stands(s.c.sets[f.main].serviceName, s.c.sets[f.main])
    requires s.c.sets[f.main].update == w && s.c.sets[f.main].template != w
    ensures OnlyMainMoved(f, s.c, d) && LeftBehind(d.sets[f.main], w)
    ensures CanGoDark(p, f, System(d, s.at), false) ==> CanGoDark(p, f, s, false)
  {
    var c := Replace(p, f, s);
    var t := Step(p, System(c, s.at), World(Promote(f.main)));
    MainEventMoves(f, c, Promote(f.main));
    d := CurrentIsLeft(p, f, t, w);
    if CanGoDark(p, f, System(d, s.at), false) {
      DarkAfter(p, f, System(c, s.at), World(Promote(f.main)), false);
    }
  }

  /** The secondaries run what they were asked for, and the spec asks each for something else. */
  ghost predicate AllOutdated(p: Platform, f: Fleet, inst: Instance, c: Cluster) {
    && f.Valid() && Member(f, inst)
    && forall n | n in f.secondaries ::
         n in c.sets && Stands(f.services[n], c.sets[n]) && c.sets[n].pod == c.sets[n].template
         && !NodeConforms(p, f, inst, n, c.sets[n])
  }

  lemma FleetInLine(p: Platform, f: Fleet, inst: Instance, c: Cluster)
    requires AllOutdated(p, f, inst, c)
    ensures forall m | 0 <= m < |inst.secondaries| :: InLine(inst, c, m)
  {
    forall m | 0 <= m < |inst.secondaries| ensures InLine(inst, c, m) {
      SecondaryOfFleet(f, inst, m);
    }
  }

  /** Once all of them have been written, all of them are due to restart. */
  lemma PlacedAreDue(p: Platform, f: Fleet, inst: Instance, c: Cluster)
    requires WriteSettles(p) && AllOutdated(p, f, inst, c)
    ensures var d := Placed(p, inst, c, 0, |inst.secondaries|);
            SecondariesDue(f, d) && SameAt(c, d, f.main)
  {
    var k := |inst.secondaries|;
    var d := Placed(p, inst, c, 0, k);
    FleetInLine(p, f, inst, c);
    PlacingRewrites(p, inst, c, 0, k);
    forall n | n in f.secondaries ensures CanStop(d, n) {
      var i :| 0 <= i < k && inst.secondaries[i].name == n by {
        assert n in SecondaryNames(inst);
      }
      PlacingPlaces(p, inst, c, 0, k, i);
      SecondaryOfFleet(f, inst, i);
      assert SameButTemplate(c.sets[n], d.sets[n]);
      assert NodeConforms(p, f, inst, n, d.sets[n]);
    }
    assert f.main !in NamesBetween(inst, 0, k);
  }

  /** All nodes are due to restart. */
  lemma AllDueGoesDark(p: Platform, f: Fleet, s: System)
    requires WellFormed(s.at) && SecondariesDue(f, s.c) && CanStop(s.c, f.main)
    ensures CanGoDark(p, f, s, false)
  {
    var d := StopAll(p, f, s, f.Nodes(), false);
    DarkNow(p, f, System(d, s.at), false);
  }

  /** With the gate behind it the pass writes all secondaries. */
  lemma OpenGateGoesDark(p: Platform, f: Fleet, inst: Instance, c: Cluster)
    requires WriteSettles(p) && AllOutdated(p, f, inst, c) && CanStop(c, f.main)
    ensures CanGoDark(p, f, System(c, NodePoint(inst, 0)), false)
  {
    var d := Placed(p, inst, c, 0, |inst.secondaries|);
    PlacedAreDue(p, f, inst, c);
    AllDueGoesDark(p, f, System(d, NodePoint(inst, |inst.secondaries|)));
    FleetInLine(p, f, inst, c);
    PlacedCalls(p, inst, c, 0, |inst.secondaries|, System(d, NodePoint(inst, |inst.secondaries|)));
    DarkAfterBecoming(p, f, System(c, NodePoint(inst, 0)), System(d, NodePoint(inst, |inst.secondaries|)), false);
  }

  /** The status of the main node says that it is rolled out, and its pod still has to be replaced. */
  predicate Misreports(x: StatefulSet) {
    x.current == x.update && x.ready && IsNewestGeneration(x) && 0 < x.observed && x.pod != x.update
  }

  lemma CheckpointGoesDark(p: Platform, f: Fleet, inst: Instance, c: Cluster)
    requires |inst.secondaries| > 0 && CanGoDark(p, f, System(c, NodeHook(inst, 0)), false)
    ensures CanGoDark(p, f, System(c, GateOngoing(inst, true)), false)
  {
    var s := System(c, GateOngoing(inst, true));
    assert Step(p, s, Op(c.checkpoint.None?)) == System(c, NodeHook(inst, 0));
    DarkAfter(p, f, s, Op(c.checkpoint.None?), false);
  }

  lemma RevisionGoesDark(p: Platform, f: Fleet, inst: Instance, c: Cluster)
    requires |inst.secondaries| > 0 && inst.main.name in c.sets && Misreports(c.sets[inst.main.name])
    requires CanGoDark(p, f, System(c, GateOngoing(inst, true)), false)
    ensures CanGoDark(p, f, System(c, GateRevision(inst, true)), false)
  {
    assert Step(p, System(c, GateRevision(inst, true)), Op(true)) == System(c, GateOngoing(inst, true));
    DarkAfter(p, f, System(c, GateRevision(inst, true)), Op(true), false);
  }

  lemma GenerationGoesDark(p: Platform, f: Fleet, inst: Instance, c: Cluster)
    requires |inst.secondaries| > 0 && inst.main.name in c.sets && Misreports(c.sets[inst.main.name])
    requires CanGoDark(p, f, System(c, GateRevision(inst, true)), false)
    ensures CanGoDark(p, f, System(c, GateGeneration(inst)), false)
  {
    assert Step(p, System(c, GateGeneration(inst)), Op(true)) == System(c, GateRevision(inst, true));
    DarkAfter(p, f, System(c, GateGeneration(inst)), Op(true), false);
  }

  lemma GateGoesDark(p: Platform, f: Fleet, inst: Instance, c: Cluster)
    requires WriteSettles(p) && AllOutdated(p, f, inst, c) && f.main in c.sets && Misreports(c.sets[f.main])
    ensures CanGoDark(p, f, System(c, GateGeneration(inst)), false)
  {
    var n :| n in f.secondaries;
    assert n in SecondaryNames(inst) && |inst.secondaries| > 0;
    OpenGateGoesDark(p, f, inst, c);
    CheckpointGoesDark(p, f, inst, c);
    RevisionGoesDark(p, f, inst, c);
    GenerationGoesDark(p, f, inst, c);
  }

  lemma PrunedSparesFleet(p: Platform, f: Fleet, inst: Instance, c: Cluster)
    requires AllOutdated(p, f, inst, c) && f.main in c.sets && c.sets[f.main].role != SecondaryRole
    ensures var d := Convergence.Pruned(c, ObsoleteNames(c, inst));
            AllOutdated(p, f, inst, d) && SameAt(c, d, f.main)
  {
    var d := Convergence.Pruned(c, ObsoleteNames(c, inst));
    forall n | n in f.secondaries ensures n in d.sets && d.sets[n] == c.sets[n] {
      assert n in SecondaryNames(inst);
    }
  }

  lemma ListingGoesDark(p: Platform, f: Fleet, inst: Instance, c: Cluster)
    requires WriteSettles(p) && AllOutdated(p, f, inst, c) && f.main in c.sets && c.sets[f.main].role != SecondaryRole
    requires Misreports(c.sets[f.main])
    ensures CanGoDark(p, f, System(c, Obsolete(inst)), false)
  {
    var names := ObsoleteNames(c, inst);
    var s, d := System(c, Obsolete(inst)), Convergence.Pruned(c, names);
    var n :| n in f.secondaries;
    assert n in SecondaryNames(inst) && AfterPrune(inst) == GateGeneration(inst);
    PrunedSparesFleet(p, f, inst, c);
    GateGoesDark(p, f, inst, c);
    GateGoesDark(p, f, inst, d);
    if names != {} {
      Convergence.PruneCalls(p, inst, c, names);
      DarkAfterBecoming(p, f, System(c, Prune(inst, names)), System(d, GateGeneration(inst)), false);
    }
    CallByGroup(p, s, true);
    DarkAfter(p, f, s, Op(true), false);
  }

  /** A main node that is written back to the template it has just left. */
  lemma WriteBackGoesDark(p: Platform, f: Fleet, inst: Instance, c: Cluster)
    requires WriteSettles(p) && AllOutdated(p, f, inst, c) && f.main in c.sets && c.sets[f.main].role != SecondaryRole
    requires Stands(f.services[f.main], c.sets[f.main])
    requires LeftBehind(c.sets[f.main], Next(p, f, inst, c.sets[f.main]))
    ensures CanGoDark(p, f, System(c, MainWrite(inst)), false)
  {
    MainNodeOfFleet(f, inst);
    var d := Apply(p, c, MainRole, inst.main).value;
    var s, t := System(c, MainWrite(inst)), System(d, Obsolete(inst));
    var e := Happen(d, Observe(f.main));
    forall n | n in f.secondaries ensures n in e.sets && e.sets[n] == c.sets[n] {
      assert n != f.main;
    }
    ListingGoesDark(p, f, inst, e);
    DarkAfter(p, f, t, World(Observe(f.main)), false);
    CallByGroup(p, s, true);
    DarkAfter(p, f, s, Op(true), false);
  }

  lemma BuilderWritesBack(p: Platform, f: Fleet, inst: Instance, c: Cluster)
    requires WriteSettles(p) && AllOutdated(p, f, inst, c) && f.main in c.sets && c.sets[f.main].role != SecondaryRole
    requires Stands(f.services[f.main], c.sets[f.main])
    requires LeftBehind(c.sets[f.main], Next(p, f, inst, c.sets[f.main]))
    ensures CanGoDark(p, f, System(c, Support(inst)), false)
  {
    var d := c.(support := inst.support);
    var s, t := System(c, Support(inst)), System(d, MainHook(inst));
    MainNodeOfFleet(f, inst);
    assert AllOutdated(p, f, inst, d);
    WriteBackGoesDark(p, f, inst, d);
    CallByGroup(p, t, true);
    DarkAfter(p, f, t, Op(true), false);
    CallByGroup(p, s, true);
    DarkAfter(p, f, s, Op(true), false);
  }

  lemma LeftBehindGoesDark(p: Platform, f: Fleet, inst: Instance, c: Cluster, d: Cluster, o: Outcome)
    requires WriteSettles(p) && AllOutdated(p, f, inst, c) && f.main in c.sets && c.sets[f.main].role != SecondaryRole
    requires Stands(f.services[f.main], c.sets[f.main]) && c.teamcity == Some(inst) && !inst.deleting
    requires OnlyMainMoved(f, c, d) && LeftBehind(d.sets[f.main], Next(p, f, inst, c.sets[f.main]))
    ensures CanGoDark(p, f, System(d, Rest(o)), false)
  {
    forall n | n in f.secondaries ensures n in d.sets && d.sets[n] == c.sets[n] {
      assert n != f.main;
    }
    BuilderWritesBack(p, f, inst, d);
    SwallowedErrorsGoDark(p, f, System(d, Rest(o)), inst);
  }

  lemma StrayGoesDark(p: Platform, f: Fleet, inst: Instance, c: Cluster, o: Outcome)
    requires WriteSettles(p) && AllOutdated(p, f, inst, c) && f.main in c.sets && c.sets[f.main].role != SecondaryRole
    requires Stands(f.services[f.main], c.sets[f.main]) && c.teamcity == Some(inst) && !inst.deleting
    requires !Onward(p, f, inst, c.sets[f.main])
    ensures CanGoDark(p, f, System(c, Rest(o)), false)
  {
    var w := Next(p, f, inst, c.sets[f.main]);
    var d;
    if c.sets[f.main].current == w {
      d := CurrentIsLeft(p, f, System(c, Rest(o)), w);
    } else {
      d := UpdateIsLeft(p, f, System(c, Rest(o)), w);
    }
    LeftBehindGoesDark(p, f, inst, c, d, o);
  }

  // ---- Edits that arrive too early ----

  /** Where a secondary answers for as long as it takes, no run goes dark. */
  lemma KeptIsNotDark(p: Platform, f: Fleet, m: string, s: System, smooth: bool)
    requires WriteSettles(p) && Kept(p, f, m, s)
    ensures !CanGoDark(p, f, s, smooth)
  {
    forall acts: seq<Act> | AdmissibleRun(p, f, s, acts) ensures !Dark(f, Run(p, s, acts).c) {
      OneAnswers(p, f, m, s, acts, |acts|);
      assert f.main in f.Nodes() && m in f.Nodes();
    }
  }

  /** What leads to an outage: the main node is to be rewritten, and either it is rolled out and no
      secondary is without a restart before it, or it is told to go back to a template that it is
      being rolled away from and no secondary is left as it is. */
  predicate TooEarly(p: Platform, f: Fleet, c: Cluster, after: Instance)
    requires Member(f, after) && forall n | n in f.Nodes() :: n in c.sets
  {
    var x := c.sets[f.main];
    && !NodeConforms(p, f, after, f.main, x)
    && if Settled(x) then forall n | n in f.secondaries :: Restarting(c.sets[n])
       else !Onward(p, f, after, x) && forall n | n in f.secondaries :: !NodeConforms(p, f, after, n, c.sets[n])
  }

  lemma InvStands(p: Platform, f: Fleet, s: System)
    requires Inv(p, f, s)
    ensures Standing(f, s.c) && Rolling(f.services[f.main], s.c.sets[f.main])
    ensures !Settled(s.c.sets[f.main]) ==> SecondariesSettled(f, s.c)
  {
    assert f.main in f.Nodes();
  }

  lemma WatchedAfterEdit(p: Platform, f: Fleet, m: string, s: System, after: Instance)
    requires Inv(p, f, s) && s.at.Rest? && s.c.teamcity.Some? && Member(f, after) && m in f.secondaries
    requires NodeConforms(p, f, after, f.main, s.c.sets[f.main]) || Onward(p, f, after, s.c.sets[f.main])
    requires || Steady(s.c.sets[m])
             || (Settled(s.c.sets[f.main]) && NodeConforms(p, f, after, f.main, s.c.sets[f.main]))
    ensures Watched(p, f, m, System(s.c.(teamcity := Some(after)), s.at))
  {
    InvStands(p, f, s);
    NextConforms(p, f, after, s.c.sets[f.main]);
  }

  lemma AnchoredAfterEdit(p: Platform, f: Fleet, m: string, s: System, after: Instance)
    requires Inv(p, f, s) && s.at.Rest? && s.c.teamcity.Some? && Member(f, after) && !after.deleting
    requires m in f.secondaries && !Settled(s.c.sets[f.main]) && NodeConforms(p, f, after, m, s.c.sets[m])
    ensures Anchored(p, f, m, System(s.c.(teamcity := Some(after)), s.at))
  {
    InvStands(p, f, s);
  }

  /** A secondary that is a reason not to worry. */
  lemma SomeSecondaryKeeps(p: Platform, f: Fleet, s: System, after: Instance) returns (m: string)
    requires Inv(p, f, s) && s.at.Rest? && s.c.teamcity.Some? && Member(f, after) && !after.deleting
    requires !TooEarly(p, f, s.c, after)
    ensures Kept(p, f, m, System(s.c.(teamcity := Some(after)), s.at))
  {
    var x := s.c.sets[f.main];
    InvStands(p, f, s);
    NextConforms(p, f, after, x);
    if NodeConforms(p, f, after, f.main, x) {
      m :| m in f.secondaries;
      WatchedIfDone(p, f, m, s, after);
    } else if Settled(x) {
      m :| m in f.secondaries && !Restarting(s.c.sets[m]);
      WatchedAfterEdit(p, f, m, s, after);
    } else if Onward(p, f, after, x) {
      m :| m in f.secondaries;
      WatchedAfterEdit(p, f, m, s, after);
    } else {
      m :| m in f.secondaries && NodeConforms(p, f, after, m, s.c.sets[m]);
      AnchoredAfterEdit(p, f, m, s, after);
    }
  }

  lemma WatchedIfDone(p: Platform, f: Fleet, m: string, s: System, after: Instance)
    requires Inv(p, f, s) && s.at.Rest? && s.c.teamcity.Some? && Member(f, after) && m in f.secondaries
    requires NodeConforms(p, f, after, f.main, s.c.sets[f.main])
    ensures Watched(p, f, m, System(s.c.(teamcity := Some(after)), s.at))
  {
    InvStands(p, f, s);
    WatchedAfterEdit(p, f, m, s, after);
  }

  lemma TooEarlyGoesDark(p: Platform, f: Fleet, s: System, after: Instance, smooth: bool)
    requires WriteSettles(p) && Inv(p, f, s) && s.at.Rest? && s.c.teamcity.Some?
    requires Member(f, after) && !after.deleting && TooEarly(p, f, s.c, after)
    requires smooth ==> s.c.checkpoint.None? && Settled(s.c.sets[f.main])
    ensures CanGoDark(p, f, System(s.c.(teamcity := Some(after)), s.at), smooth)
  {
    var t := System(s.c.(teamcity := Some(after)), s.at);
    InvStands(p, f, s);
    if Settled(s.c.sets[f.main]) {
      DueGoesDark(p, f, t, after, smooth);
    } else {
      StrayGoesDark(p, f, after, t.c, s.at.outcome);
    }
  }

  /** An edit between passes, of any nodes and at any moment of a rollout, can leave nobody to answer
      exactly if it comes too early. If the main node is rolled out and there is no checkpoint, as
      when secondaries are restarted, no call has to fail for that. */
  lemma EditBetweenPasses(p: Platform, f: Fleet, s: System, after: Instance)
    requires WriteSettles(p) && Inv(p, f, s) && s.at.Rest? && s.c.teamcity.Some?
    requires Member(f, after) && !after.deleting
    ensures CanGoDark(p, f, Step(p, s, World(Edit(after))), false) <==> TooEarly(p, f, s.c, after)
    ensures s.c.checkpoint.None? && Settled(s.c.sets[f.main]) ==>
              (CanGoDark(p, f, Step(p, s, World(Edit(after))), true) <==> TooEarly(p, f, s.c, after))
  {
    var t := System(s.c.(teamcity := Some(after)), s.at);
    assert Step(p, s, World(Edit(after))) == t;
    if TooEarly(p, f, s.c, after) {
      TooEarlyGoesDark(p, f, s, after, false);
      if s.c.checkpoint.None? && Settled(s.c.sets[f.main]) {
        TooEarlyGoesDark(p, f, s, after, true);
      }
    } else {
      var m := SomeSecondaryKeeps(p, f, s, after);
      KeptIsNotDark(p, f, m, t, false);
      KeptIsNotDark(p, f, m, t, true);
    }
  }

  /** While the secondaries restart: exactly if the edit changes the main node and every secondary is
      still due to restart or down. */
  lemma EditDuringRestart(p: Platform, f: Fleet, s: System, after: Instance)
    requires WriteSettles(p) && Inv(p, f, s) && s.at.Rest? && s.c.teamcity.Some?
    requires Settled(s.c.sets[f.main]) && Member(f, after) && !after.deleting
    ensures CanGoDark(p, f, Step(p, s, World(Edit(after))), false) <==>
            && !NodeConforms(p, f, after, f.main, s.c.sets[f.main])
            && forall n | n in f.secondaries :: Restarting(s.c.sets[n])
  {
    EditBetweenPasses(p, f, s, after);
  }

  /** While the main node is rolled out behind the secondaries: exactly if the edit sends it back to
      a template that it is being rolled away from, and changes every secondary. */
  lemma EditDuringMainRollout(p: Platform, f: Fleet, s: System, after: Instance)
    requires WriteSettles(p) && Inv(p, f, s) && s.at.Rest? && s.c.teamcity.Some?
    requires !Settled(s.c.sets[f.main]) && Member(f, after) && !after.deleting
    ensures CanGoDark(p, f, Step(p, s, World(Edit(after))), false) <==>
            && !NodeConforms(p, f, after, f.main, s.c.sets[f.main])
            && !Onward(p, f, after, s.c.sets[f.main])
            && forall n | n in f.secondaries :: !NodeConforms(p, f, after, n, s.c.sets[n])
  {
    EditBetweenPasses(p, f, s, after);
  }
}
