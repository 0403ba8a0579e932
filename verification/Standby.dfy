/** What one secondary is enough for: as long as it answers, some node does, although an edit arrived
    before the nodes were rolled out. */
module Standby {
  import opened PodTree
  import opened PodTemplate
  import opened Stages
  import opened Cluster
  import opened Protocol
  import opened MultiNode
  import Ordering

  /** The pod runs what is stored, whether or not the status says so already. */
  predicate Steady(x: StatefulSet) {
    !Restarting(x) && !x.terminating
  }

  predicate Stands(serviceName: string, x: StatefulSet) {
    x.serviceName == serviceName && !x.terminating && 0 < x.observed <= x.generation
  }

  predicate Standing(f: Fleet, c: Cluster) {
    && f.Nodes() <= f.services.Keys
    && (forall n | n in f.Nodes() :: n in c.sets && Stands(f.services[n], c.sets[n]))
    && c.sets[f.main].role != SecondaryRole
  }

  /** What the builder would make of the main node. */
  function Next(p: Platform, f: Fleet, inst: Instance, x: StatefulSet): Template
    requires Member(f, inst)
  {
    p.write(inst.main.desired, x.template)
  }

  /** The spec does not go back to a template of the main node that is still being rolled away from. */
  predicate Onward(p: Platform, f: Fleet, inst: Instance, x: StatefulSet)
    requires Member(f, inst)
  {
    Next(p, f, inst, x) == x.template || Next(p, f, inst, x) !in {x.current, x.update}
  }

  lemma NextConforms(p: Platform, f: Fleet, inst: Instance, x: StatefulSet)
    requires Member(f, inst)
    ensures Wanted(f, inst, f.main) == inst.main.desired
    ensures NodeConforms(p, f, inst, f.main, x) <==> Next(p, f, inst, x) == x.template
  {
  }

  predicate InFleet(f: Fleet, at: Point) {
    && (!at.Rest? ==> Member(f, at.inst))
    && (at.Prune? ==> at.rest !! f.Nodes())
    && !at.MainRemove? && !at.MainRecheck? && !at.NodeRemove? && !at.NodeRecheck?
  }

  /** The main node is done, or the secondary `m` answers. */
  predicate Guarded(p: Platform, f: Fleet, m: string, c: Cluster)
    requires Standing(f, c) && m in f.secondaries
  {
    || Steady(c.sets[m])
    || (&& Settled(c.sets[f.main])
        && (c.teamcity.Some? ==>
              Member(f, c.teamcity.value) && NodeConforms(p, f, c.teamcity.value, f.main, c.sets[f.main])))
  }

  /** A rollout of the main node that its status does not misreport, and the secondary `m` untouched
      until it is over. The other secondaries may be in any state. */
  ghost predicate Watched(p: Platform, f: Fleet, m: string, s: System) {
    && f.Valid() && m in f.secondaries && WellFormed(s.at)
    && Standing(f, s.c) && Rolling(f.services[f.main], s.c.sets[f.main])
    && (s.c.teamcity.Some? ==>
          Member(f, s.c.teamcity.value) && Onward(p, f, s.c.teamcity.value, s.c.sets[f.main]))
    && Guarded(p, f, m, s.c)
    && (!s.at.Rest? ==> Holds(p, f, s.c, s.at.inst) && Learned(p, f, s.at, s.c.sets[f.main]))
  }

  /** The secondary `m` is what the spec asks for, so that no builder touches it; the status of the
      main node may say anything. */
  ghost predicate Anchored(p: Platform, f: Fleet, m: string, s: System) {
    && f.Valid() && m in f.secondaries && WellFormed(s.at)
    && Standing(f, s.c)
    && s.c.teamcity.Some? && !s.c.teamcity.value.deleting && Member(f, s.c.teamcity.value)
    && Settled(s.c.sets[m]) && NodeConforms(p, f, s.c.teamcity.value, m, s.c.sets[m])
    && (!s.at.Rest? ==> s.at.inst == s.c.teamcity.value)
    && InFleet(f, s.at) && !InFinalizer(s.at)
  }

  ghost predicate Kept(p: Platform, f: Fleet, m: string, s: System) {
    Watched(p, f, m, s) || Anchored(p, f, m, s)
  }

  // ---- The world ----

  lemma EventKeepsStanding(f: Fleet, c: Cluster, e: Event)
    requires Standing(f, c) && !e.Edit? && !(e.PodFailure? && e.name in f.Nodes())
    ensures Standing(f, Happen(c, e))
    ensures forall n | n in f.Nodes() ::
              var x, y := c.sets[n], Happen(c, e).sets[n];
              && y.template == x.template && (Settled(x) ==> Settled(y)) && (Steady(x) ==> Steady(y))
              && y.current in {x.current, x.update, x.template} && y.update in {x.update, x.template}
    ensures Happen(c, e) == c.(sets := Happen(c, e).sets)
  {
  }

  lemma EventKeepsQuiet(p: Platform, f: Fleet, inst: Instance, c: Cluster, e: Event)
    requires Standing(f, c) && Quiet(p, f, inst, c) && !e.Edit? && !(e.PodFailure? && e.name in f.Nodes())
    ensures Quiet(p, f, inst, Happen(c, e))
  {
    EventKeepsStanding(f, c, e);
  }

  lemma EventKeepsWatched(p: Platform, f: Fleet, m: string, s: System, e: Event)
    requires Watched(p, f, m, s) && Admissible(p, f, s, World(e)) && !e.Edit?
    ensures Watched(p, f, m, System(Happen(s.c, e), s.at))
  {
    EventKeepsStanding(f, s.c, e);
    NodeEventAdvances(f.services[f.main], s.c, f.main, e);
    if !s.at.Rest? && Quiet(p, f, s.at.inst, s.c) {
      EventKeepsQuiet(p, f, s.at.inst, s.c, e);
    }
  }

  lemma EventKeepsAnchored(p: Platform, f: Fleet, m: string, s: System, e: Event)
    requires Anchored(p, f, m, s) && Admissible(p, f, s, World(e)) && !e.Edit?
    ensures Anchored(p, f, m, System(Happen(s.c, e), s.at))
  {
    EventKeepsStanding(f, s.c, e);
  }

  /** An edit that finds all nodes rolled out leaves nothing to fear. */
  lemma EditIsWatched(p: Platform, f: Fleet, m: string, s: System, inst: Instance)
    requires f.Valid() && m in f.secondaries && WellFormed(s.at) && Standing(f, s.c) && InFleet(f, s.at)
    requires s.c.teamcity.Some? && Quiet(p, f, s.c.teamcity.value, s.c) && Member(f, inst)
    requires !s.at.Rest? ==> Holds(p, f, s.c, s.at.inst)
    ensures Watched(p, f, m, System(s.c.(teamcity := Some(inst)), s.at))
  {
    assert f.main in f.Nodes() && m in f.Nodes();
    NextConforms(p, f, inst, s.c.sets[f.main]);
  }

  // ---- The calls ----

  predicate SameFleet(f: Fleet, c: Cluster, d: Cluster) {
    && (d.teamcity == c.teamcity || d.teamcity.None?)
    && forall n | n in f.Nodes() :: n in c.sets && n in d.sets && d.sets[n] == c.sets[n]
  }

  lemma MoveKeepsWatched(p: Platform, f: Fleet, m: string, s: System, t: System)
    requires Watched(p, f, m, s) && SameFleet(f, s.c, t.c) && WellFormed(t.at)
    requires t.c.teamcity.None? && s.c.teamcity.Some? ==> t.at.Rest?
    requires !t.at.Rest? ==> Holds(p, f, s.c, t.at.inst) && Learned(p, f, t.at, s.c.sets[f.main])
    ensures Watched(p, f, m, t)
  {
    assert f.main in f.Nodes() && m in f.Nodes();
  }

  lemma MoveKeepsAnchored(p: Platform, f: Fleet, m: string, s: System, t: System)
    requires Anchored(p, f, m, s) && SameFleet(f, s.c, t.c) && WellFormed(t.at) && t.c.teamcity == s.c.teamcity
    requires !t.at.Rest? ==> t.at.inst == s.c.teamcity.value
    requires InFleet(f, t.at) && !InFinalizer(t.at)
    ensures Anchored(p, f, m, t)
  {
    assert f.main in f.Nodes() && m in f.Nodes();
  }

  lemma UpgradeMoveSparesFleet(f: Fleet, s: System, t: System)
    requires f.Valid() && Standing(f, s.c) && InFleet(f, s.at) && UpgradeMove(s, t)
    ensures SameFleet(f, s.c, t.c)
  {
    if !s.at.Rest? {
      assert |ReplicaName(s.at.inst)| > |f.main|;
    }
  }

  lemma UpgradeCallKeepsWatched(p: Platform, f: Fleet, m: string, s: System, ok: bool)
    requires Watched(p, f, m, s) && !InMain(s.at) && !InGate(s.at) && !InNode(s.at)
    ensures Watched(p, f, m, Call(p, s, ok))
  {
    var t := Call(p, s, ok);
    UpgradeCallMoves(p, s, ok);
    UpgradeMoveSparesFleet(f, s, t);
    if !t.at.Rest? {
      OutsideBuilderLearnsNothing(p, f, t.at, s.c.sets[f.main]);
    }
    MoveKeepsWatched(p, f, m, s, t);
  }

  lemma NoFinalizer(p: Platform, s: System, ok: bool)
    requires WellFormed(s.at) && (s.at.Rest? || InDetection(s.at) || InHandler(s.at) || InPersist(s.at))
    requires s.at.Rest? ==> s.c.teamcity.Some? && !s.c.teamcity.value.deleting
    ensures !InFinalizer(Call(p, s, ok).at) && Call(p, s, ok).c.teamcity == s.c.teamcity
  {
  }

  lemma UpgradeMoveKeepsAnchored(p: Platform, f: Fleet, m: string, s: System, t: System)
    requires Anchored(p, f, m, s) && UpgradeMove(s, t) && WellFormed(t.at)
    requires !InFinalizer(t.at) && t.c.teamcity == s.c.teamcity
    ensures Anchored(p, f, m, t)
  {
    UpgradeMoveSparesFleet(f, s, t);
    MoveKeepsAnchored(p, f, m, s, t);
  }

  lemma UpgradeCallKeepsAnchored(p: Platform, f: Fleet, m: string, s: System, ok: bool)
    requires Anchored(p, f, m, s) && !InMain(s.at) && !InGate(s.at) && !InNode(s.at)
    ensures Anchored(p, f, m, Call(p, s, ok))
  {
    UpgradeCallMoves(p, s, ok);
    NoFinalizer(p, s, ok);
    UpgradeMoveKeepsAnchored(p, f, m, s, Call(p, s, ok));
  }

  lemma GateSparesFleet(p: Platform, f: Fleet, s: System, ok: bool)
    requires Standing(f, s.c) && WellFormed(s.at) && InGate(s.at) && InFleet(f, s.at)
    ensures var t := CallGate(p, s, ok);
            SameFleet(f, s.c, t.c) && t.c.teamcity == s.c.teamcity && InFleet(f, t.at) && !InFinalizer(t.at)
    ensures var t := CallGate(p, s, ok); !t.at.Rest? ==> t.at.inst == s.at.inst
  {
    if s.at.Obsolete? {
      assert ObsoleteNames(s.c, s.at.inst) !! f.Nodes();
    } else if s.at.Prune? {
      assert Ordering.First(s.at.rest) !in f.Nodes();
    }
  }

  lemma GateCallKeepsWatched(p: Platform, f: Fleet, m: string, s: System, ok: bool)
    requires Watched(p, f, m, s) && InGate(s.at)
    ensures Watched(p, f, m, CallGate(p, s, ok))
  {
    GateSparesFleet(p, f, s, ok);
    assert Rolling(f.services[f.main], s.c.sets[f.main]);
    MoveKeepsWatched(p, f, m, s, CallGate(p, s, ok));
  }

  lemma GateCallKeepsAnchored(p: Platform, f: Fleet, m: string, s: System, ok: bool)
    requires Anchored(p, f, m, s) && InGate(s.at)
    ensures Anchored(p, f, m, CallGate(p, s, ok))
  {
    GateSparesFleet(p, f, s, ok);
    MoveKeepsAnchored(p, f, m, s, CallGate(p, s, ok));
  }

  /** Calls of the builders that write no StatefulSet. */
  lemma LookSparesFleet(p: Platform, f: Fleet, s: System, ok: bool)
    requires Standing(f, s.c) && WellFormed(s.at) && InFleet(f, s.at)
    requires s.at.Support? || s.at.MainHook? || s.at.NodeHook? || s.at.LastCheck?
    ensures var t := Call(p, s, ok);
            SameFleet(f, s.c, t.c) && t.c.teamcity == s.c.teamcity && InFleet(f, t.at) && !InFinalizer(t.at)
    ensures var t := Call(p, s, ok);
            !t.at.Rest? ==>
              && t.at.inst == s.at.inst
              && (t.at.MainHook? || t.at.MainWrite? || (s.at.NodeHook? && t.at.NodeWrite?))
  {
    assert s.at.inst.main in AllNodes(s.at.inst);
    if s.at.NodeHook? {
      var node := NodeAt(s.at.inst, s.at.j);
      assert node in AllNodes(s.at.inst) && node.name in SecondaryNames(s.at.inst);
    }
  }

  lemma LookKeepsWatched(p: Platform, f: Fleet, m: string, s: System, ok: bool)
    requires Watched(p, f, m, s)
    requires s.at.Support? || s.at.MainHook? || s.at.NodeHook? || s.at.LastCheck?
    ensures Watched(p, f, m, Call(p, s, ok))
  {
    LookSparesFleet(p, f, s, ok);
    MoveKeepsWatched(p, f, m, s, Call(p, s, ok));
  }

  lemma LookKeepsAnchored(p: Platform, f: Fleet, m: string, s: System, ok: bool)
    requires Anchored(p, f, m, s)
    requires s.at.Support? || s.at.MainHook? || s.at.NodeHook? || s.at.LastCheck?
    ensures Anchored(p, f, m, Call(p, s, ok))
  {
    LookSparesFleet(p, f, s, ok);
    MoveKeepsAnchored(p, f, m, s, Call(p, s, ok));
  }

  /** The write of node `n` is accepted and changes nothing else. */
  lemma WriteOfNode(p: Platform, f: Fleet, c: Cluster, inst: Instance, role: Role, node: Node)
    requires f.Valid() && Standing(f, c) && Member(f, inst) && node in AllNodes(inst) && node.name in f.Nodes()
    requires node.desired == Wanted(f, inst, node.name)
    ensures var r := Apply(p, c, role, node);
            && r.Some? && MultiNode.Written(p, f, inst, node.name, c, r.value) && Standing(f, r.value)
            && (NodeConforms(p, f, inst, node.name, c.sets[node.name]) ==> r.value == c)
            && (WriteSettles(p) ==> NodeConforms(p, f, inst, node.name, r.value.sets[node.name]))
  {
    assert Stands(f.services[node.name], c.sets[node.name]);
    var d := Apply(p, c, role, node).value;
    if NodeConforms(p, f, inst, node.name, c.sets[node.name]) {
      assert d.sets == c.sets;
    }
  }

  lemma MainNodeOfFleet(f: Fleet, inst: Instance)
    requires f.Valid() && Member(f, inst)
    ensures inst.main in AllNodes(inst) && inst.main.name == f.main && inst.main.desired == Wanted(f, inst, f.main)
  {
  }

  lemma SecondaryOfFleet(f: Fleet, inst: Instance, j: nat)
    requires f.Valid() && Member(f, inst) && j < |inst.secondaries|
    ensures var node := NodeAt(inst, j);
            && node in AllNodes(inst) && node.name in f.secondaries && node.desired == Wanted(f, inst, node.name)
  {
    assert NodeAt(inst, j).name in SecondaryNames(inst);
  }

  lemma MainWriteKeepsRolling(p: Platform, f: Fleet, inst: Instance, x: StatefulSet)
    requires Member(f, inst) && Rolling(f.services[f.main], x) && Onward(p, f, inst, x)
    requires f.main in f.services
    ensures Rolling(f.services[f.main], Store(x, Next(p, f, inst, x)))
  {
  }

  lemma MainChangeKeepsWatched(p: Platform, f: Fleet, m: string, s: System, d: Cluster)
    requires WriteSettles(p) && Watched(p, f, m, s) && s.at.MainWrite? && s.c.teamcity == Some(s.at.inst)
    requires !NodeConforms(p, f, s.at.inst, f.main, s.c.sets[f.main])
    requires MultiNode.Written(p, f, s.at.inst, f.main, s.c, d) && Standing(f, d)
    requires NodeConforms(p, f, s.at.inst, f.main, d.sets[f.main])
    ensures Watched(p, f, m, System(d, Obsolete(s.at.inst)))
  {
    NextConforms(p, f, s.at.inst, s.c.sets[f.main]);
    NextConforms(p, f, s.at.inst, d.sets[f.main]);
    MainWriteKeepsRolling(p, f, s.at.inst, s.c.sets[f.main]);
    assert d.sets[m] == s.c.sets[m];
  }

  lemma MainWriteKeepsWatched(p: Platform, f: Fleet, m: string, s: System, ok: bool)
    requires WriteSettles(p) && Watched(p, f, m, s) && s.at.MainWrite?
    ensures Watched(p, f, m, CallMain(p, s, ok))
  {
    var inst, t := s.at.inst, CallMain(p, s, ok);
    MainNodeOfFleet(f, inst);
    WriteOfNode(p, f, s.c, inst, MainRole, inst.main);
    if !ok || NodeConforms(p, f, inst, f.main, s.c.sets[f.main]) {
      MoveKeepsWatched(p, f, m, s, t);
    } else {
      MainChangeKeepsWatched(p, f, m, s, t.c);
    }
  }

  lemma NodeChangeKeepsWatched(p: Platform, f: Fleet, m: string, s: System, n: string, d: Cluster)
    requires Watched(p, f, m, s) && s.at.NodeWrite? && s.c.teamcity == Some(s.at.inst)
    requires n in f.secondaries && MultiNode.Written(p, f, s.at.inst, n, s.c, d) && Standing(f, d)
    ensures Watched(p, f, m, System(d, NextNode(s.at.inst, s.at.j)))
  {
    assert d.sets[f.main] == s.c.sets[f.main];
  }

  lemma NodeWriteCall(p: Platform, s: System, ok: bool)
    requires WellFormed(s.at) && s.at.NodeWrite?
    requires Apply(p, s.c, SecondaryRole, NodeAt(s.at.inst, s.at.j)).Some?
    ensures var d := Apply(p, s.c, SecondaryRole, NodeAt(s.at.inst, s.at.j)).value;
            CallNode(p, s, ok) == if ok then System(d, NextNode(s.at.inst, s.at.j)) else System(s.c, Rest(Failed))
  {
  }

  lemma NodeSkipKeepsWatched(p: Platform, f: Fleet, m: string, s: System)
    requires Watched(p, f, m, s) && s.at.NodeWrite?
    ensures Watched(p, f, m, System(s.c, NextNode(s.at.inst, s.at.j)))
    ensures Watched(p, f, m, System(s.c, Rest(Failed)))
  {
    MoveKeepsWatched(p, f, m, s, System(s.c, NextNode(s.at.inst, s.at.j)));
    MoveKeepsWatched(p, f, m, s, System(s.c, Rest(Failed)));
  }

  lemma WrittenNodeKeepsWatched(p: Platform, f: Fleet, m: string, s: System, node: Node, d: Cluster)
    requires WriteSettles(p) && Watched(p, f, m, s) && s.at.NodeWrite?
    requires node.name in f.secondaries && MultiNode.Written(p, f, s.at.inst, node.name, s.c, d) && Standing(f, d)
    requires NodeConforms(p, f, s.at.inst, node.name, s.c.sets[node.name]) ==> d == s.c
    ensures Watched(p, f, m, System(d, NextNode(s.at.inst, s.at.j)))
  {
    if NodeConforms(p, f, s.at.inst, node.name, s.c.sets[node.name]) {
      NodeSkipKeepsWatched(p, f, m, s);
    } else {
      NodeChangeKeepsWatched(p, f, m, s, node.name, d);
    }
  }

  lemma NodeWriteKeepsWatched(p: Platform, f: Fleet, m: string, s: System, ok: bool)
    requires WriteSettles(p) && Watched(p, f, m, s) && s.at.NodeWrite?
    ensures Watched(p, f, m, CallNode(p, s, ok))
  {
    var node := NodeAt(s.at.inst, s.at.j);
    SecondaryOfFleet(f, s.at.inst, s.at.j);
    WriteOfNode(p, f, s.c, s.at.inst, SecondaryRole, node);
    WrittenNodeKeepsWatched(p, f, m, s, node, Apply(p, s.c, SecondaryRole, node).value);
    NodeSkipKeepsWatched(p, f, m, s);
    NodeWriteCall(p, s, ok);
  }

  lemma WriteKeepsAnchored(p: Platform, f: Fleet, m: string, s: System, n: string, d: Cluster, at: Point)
    requires Anchored(p, f, m, s) && n in f.Nodes() && (n == m ==> d == s.c)
    requires MultiNode.Written(p, f, s.c.teamcity.value, n, s.c, d) && Standing(f, d)
    requires !at.Rest? && at.inst == s.c.teamcity.value && WellFormed(at) && InFleet(f, at) && !InFinalizer(at)
    ensures Anchored(p, f, m, System(d, at))
  {
    assert d.sets[m] == s.c.sets[m];
  }

  lemma MainWriteKeepsAnchored(p: Platform, f: Fleet, m: string, s: System, ok: bool)
    requires Anchored(p, f, m, s) && s.at.MainWrite?
    ensures Anchored(p, f, m, CallMain(p, s, ok))
  {
    var inst, t := s.at.inst, CallMain(p, s, ok);
    MainNodeOfFleet(f, inst);
    WriteOfNode(p, f, s.c, inst, MainRole, inst.main);
    if ok {
      WriteKeepsAnchored(p, f, m, s, f.main, t.c, t.at);
    } else {
      MoveKeepsAnchored(p, f, m, s, t);
    }
  }

  lemma WrittenNodeKeepsAnchored(p: Platform, f: Fleet, m: string, s: System, node: Node, d: Cluster)
    requires Anchored(p, f, m, s) && s.at.NodeWrite?
    requires node.name in f.secondaries && MultiNode.Written(p, f, s.at.inst, node.name, s.c, d) && Standing(f, d)
    requires NodeConforms(p, f, s.at.inst, node.name, s.c.sets[node.name]) ==> d == s.c
    ensures Anchored(p, f, m, System(d, NextNode(s.at.inst, s.at.j)))
    ensures Anchored(p, f, m, System(s.c, Rest(Failed)))
  {
    WriteKeepsAnchored(p, f, m, s, node.name, d, NextNode(s.at.inst, s.at.j));
    MoveKeepsAnchored(p, f, m, s, System(s.c, Rest(Failed)));
  }

  lemma NodeWriteKeepsAnchored(p: Platform, f: Fleet, m: string, s: System, ok: bool)
    requires Anchored(p, f, m, s) && s.at.NodeWrite?
    ensures Anchored(p, f, m, CallNode(p, s, ok))
  {
    var node := NodeAt(s.at.inst, s.at.j);
    SecondaryOfFleet(f, s.at.inst, s.at.j);
    WriteOfNode(p, f, s.c, s.at.inst, SecondaryRole, node);
    WrittenNodeKeepsAnchored(p, f, m, s, node, Apply(p, s.c, SecondaryRole, node).value);
    NodeWriteCall(p, s, ok);
  }

  lemma CallKeepsWatched(p: Platform, f: Fleet, m: string, s: System, ok: bool)
    requires WriteSettles(p) && Watched(p, f, m, s)
    ensures Watched(p, f, m, Call(p, s, ok))
  {
    CallByGroup(p, s, ok);
    if s.at.MainWrite? {
      MainWriteKeepsWatched(p, f, m, s, ok);
    } else if s.at.NodeWrite? {
      NodeWriteKeepsWatched(p, f, m, s, ok);
    } else if InGate(s.at) {
      GateCallKeepsWatched(p, f, m, s, ok);
    } else if InMain(s.at) || InNode(s.at) {
      LookKeepsWatched(p, f, m, s, ok);
    } else {
      UpgradeCallKeepsWatched(p, f, m, s, ok);
    }
  }

  lemma CallKeepsAnchored(p: Platform, f: Fleet, m: string, s: System, ok: bool)
    requires Anchored(p, f, m, s)
    ensures Anchored(p, f, m, Call(p, s, ok))
  {
    CallByGroup(p, s, ok);
    if s.at.MainWrite? {
      MainWriteKeepsAnchored(p, f, m, s, ok);
    } else if s.at.NodeWrite? {
      NodeWriteKeepsAnchored(p, f, m, s, ok);
    } else if InGate(s.at) {
      GateCallKeepsAnchored(p, f, m, s, ok);
    } else if InMain(s.at) || InNode(s.at) {
      LookKeepsAnchored(p, f, m, s, ok);
    } else {
      UpgradeCallKeepsAnchored(p, f, m, s, ok);
    }
  }

  lemma StepKeepsWatched(p: Platform, f: Fleet, m: string, s: System, a: Act)
    requires WriteSettles(p) && Watched(p, f, m, s) && Admissible(p, f, s, a)
    ensures Watched(p, f, m, Step(p, s, a))
  {
    match a
    case Op(ok) => CallKeepsWatched(p, f, m, s, ok);
    case Crash => MoveKeepsWatched(p, f, m, s, Step(p, s, a));
    case World(e) =>
      if e.Edit? {
        EditIsWatched(p, f, m, s, e.inst);
      } else {
        EventKeepsWatched(p, f, m, s, e);
      }
  }

  lemma StepKeepsOne(p: Platform, f: Fleet, m: string, s: System, a: Act)
    requires WriteSettles(p) && Kept(p, f, m, s) && Admissible(p, f, s, a)
    ensures Kept(p, f, m, Step(p, s, a))
  {
    if Watched(p, f, m, s) {
      StepKeepsWatched(p, f, m, s, a);
    } else {
      match a
      case Op(ok) => CallKeepsAnchored(p, f, m, s, ok);
      case Crash => MoveKeepsAnchored(p, f, m, s, Step(p, s, a));
      case World(e) =>
        if e.Edit? {
          EditIsWatched(p, f, m, s, e.inst);
        } else {
          EventKeepsAnchored(p, f, m, s, e);
        }
    }
  }

  lemma {:induction false} KeptAlong(p: Platform, f: Fleet, m: string, s: System, acts: seq<Act>, i: nat)
    requires WriteSettles(p) && Kept(p, f, m, s) && AdmissibleRun(p, f, s, acts) && i <= |acts|
    ensures Kept(p, f, m, Trace(p, s, acts)[i])
  {
    if i > 0 {
      KeptAlong(p, f, m, s, acts, i - 1);
      StepKeepsOne(p, f, m, Trace(p, s, acts)[i - 1], acts[i - 1]);
    }
  }

  /** Through any number of later edits, each at rolled out nodes, the main node or the secondary
      `m` answers in every state. */
  lemma OneAnswers(p: Platform, f: Fleet, m: string, s: System, acts: seq<Act>, i: nat)
    requires WriteSettles(p) && Kept(p, f, m, s) && AdmissibleRun(p, f, s, acts) && i <= |acts|
    ensures var c := Trace(p, s, acts)[i].c;
            f.main in c.sets && m in c.sets && (c.sets[f.main].ready || c.sets[m].ready)
  {
    KeptAlong(p, f, m, s, acts, i);
    assert f.main in f.Nodes() && m in f.Nodes();
  }
}
