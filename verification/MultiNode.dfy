/** A main node with any number of secondaries: some node serves in every reachable state, whatever
    calls fail and wherever the operator crashes, as long as edits arrive at settled nodes. */
module MultiNode {
  import opened PodTree
  import opened PodTemplate
  import opened Stages
  import opened Cluster
  import opened Protocol
  import Ordering

  /** What edits leave alone: the names of the nodes and their service names. */
  datatype Fleet = Fleet(main: string, secondaries: set<string>, services: map<string, string>) {
    ghost predicate Valid() {
      && secondaries != {}
      && main !in secondaries
      && ReplicaOf(main) !in secondaries
      && secondaries + {main} <= services.Keys
    }

    function Nodes(): set<string> { secondaries + {main} }
  }

  predicate Member(f: Fleet, inst: Instance) {
    && inst.main.name == f.main
    && SecondaryNames(inst) == f.secondaries
    && forall node | node in AllNodes(inst) :: node.name in f.services && node.serviceName == f.services[node.name]
  }

  /** The desired template of the node named `n`. */
  function Wanted(f: Fleet, inst: Instance, n: string): (d: Template)
    requires Member(f, inst) && n in f.Nodes()
  {
    if n == f.main then inst.main.desired
    else
      assert n in SecondaryNames(inst);
      NodeNamed(inst.secondaries, n).value.desired
  }

  predicate NodeConforms(p: Platform, f: Fleet, inst: Instance, n: string, x: StatefulSet)
    requires Member(f, inst) && n in f.Nodes()
  {
    p.write(Wanted(f, inst, n), x.template) == x.template
  }

  /** A node between two settled states, without failures of its own. */
  predicate Rolling(serviceName: string, x: StatefulSet) {
    && x.serviceName == serviceName
    && !x.terminating
    && 0 < x.observed <= x.generation
    && (IsNewestGeneration(x) ==> x.update == x.template)
    && (x.current == x.update ==> x.pod == x.update && x.ready)
    && (x.current == x.template ==> x.update == x.template)
  }

  /** Every node is rolled out and runs what `inst` asks for. */
  predicate Quiet(p: Platform, f: Fleet, inst: Instance, c: Cluster) {
    && Member(f, inst)
    && forall n | n in f.Nodes() :: n in c.sets && Settled(c.sets[n]) && NodeConforms(p, f, inst, n, c.sets[n])
  }

  predicate SecondariesSettled(f: Fleet, c: Cluster) {
    forall n | n in f.secondaries :: n in c.sets && Settled(c.sets[n])
  }

  /** Any call may fail and the operator may crash anywhere. An edit keeps names and service names,
      and arrives when the previous one is fully rolled out; no pod fails by itself. */
  predicate Admissible(p: Platform, f: Fleet, s: System, a: Act) {
    a.World? ==>
      match a.event
      case Edit(inst) => Member(f, inst) && s.c.teamcity.Some? && Quiet(p, f, s.c.teamcity.value, s.c)
      case PodFailure(n) => n !in f.Nodes()
      case _ => true
  }

  ghost predicate AdmissibleRun(p: Platform, f: Fleet, s: System, acts: seq<Act>)
    requires WellFormed(s.at)
  {
    forall i | 0 <= i < |acts| :: Admissible(p, f, Trace(p, s, acts)[i], acts[i])
  }

  // ---- The invariant ----

  predicate Healthy(f: Fleet, c: Cluster) {
    && f.Nodes() <= f.services.Keys
    && (forall n | n in f.Nodes() :: n in c.sets && Rolling(f.services[n], c.sets[n]))
    && c.sets[f.main].role != SecondaryRole
  }

  /** Nodes are restarted in turn: first the main node behind the secondaries, then the secondaries
      behind a main node that has nothing left to do. */
  predicate InTurn(p: Platform, f: Fleet, c: Cluster) {
    || SecondariesSettled(f, c)
    || (&& f.main in c.sets
        && Settled(c.sets[f.main])
        && (c.teamcity.Some? ==>
              Member(f, c.teamcity.value) && NodeConforms(p, f, c.teamcity.value, f.main, c.sets[f.main])))
  }

  predicate Reached(p: Platform, f: Fleet, c: Cluster) {
    && Healthy(f, c)
    && InTurn(p, f, c)
    && (c.teamcity.Some? ==>
          && Member(f, c.teamcity.value)
          && forall n | n in f.Nodes() :: Settled(c.sets[n]) || NodeConforms(p, f, c.teamcity.value, n, c.sets[n]))
  }

  predicate PastMainWrite(at: Point) {
    InGate(at) || at.NodeHook? || at.NodeWrite?
  }

  /** The pass works from the current instance, or from an older one that has nothing left to do. */
  predicate Holds(p: Platform, f: Fleet, c: Cluster, inst: Instance) {
    Member(f, inst) && (c.teamcity == Some(inst) || Quiet(p, f, inst, c))
  }

  /** What the pass has established on its way, about the main node `x`. */
  predicate Learned(p: Platform, f: Fleet, at: Point, x: StatefulSet)
    requires !at.Rest? ==> Member(f, at.inst)
  {
    && (PastMainWrite(at) ==> NodeConforms(p, f, at.inst, f.main, x))
    && (at.GateRevision? && at.newest ==> x.update == x.template)
    && (at.GateOngoing? && at.settled ==> Settled(x))
    && (at.NodeHook? || at.NodeWrite? ==> Settled(x))
    && (at.Prune? ==> at.rest !! f.Nodes())
    && !at.MainRemove? && !at.MainRecheck? && !at.NodeRemove? && !at.NodeRecheck?
  }

  predicate ByPoint(p: Platform, f: Fleet, s: System)
    requires Reached(p, f, s.c)
  {
    !s.at.Rest? ==> Holds(p, f, s.c, s.at.inst) && Learned(p, f, s.at, s.c.sets[f.main])
  }

  ghost predicate Inv(p: Platform, f: Fleet, s: System) {
    && f.Valid()
    && WellFormed(s.at)
    && Reached(p, f, s.c)
    && ByPoint(p, f, s)
  }

  // ---- The world keeps the invariant ----

  predicate Advances(f: Fleet, c: Cluster, d: Cluster)
    requires Healthy(f, c)
  {
    && d == c.(sets := d.sets)
    && Healthy(f, d)
    && forall n | n in f.Nodes() :: NodeAdvances(f.services[n], c.sets[n], d.sets[n])
  }

  predicate NodeAdvances(serviceName: string, x: StatefulSet, y: StatefulSet) {
    && Rolling(serviceName, y)
    && y.role == x.role
    && y.template == x.template
    && (Settled(x) ==> Settled(y))
    && (x.update == x.template ==> y.update == y.template)
  }

  lemma NodeEventAdvances(serviceName: string, c: Cluster, n: string, e: Event)
    requires n in c.sets && Rolling(serviceName, c.sets[n])
    requires !e.Edit? && !(e.PodFailure? && e.name == n)
    ensures n in Happen(c, e).sets && NodeAdvances(serviceName, c.sets[n], Happen(c, e).sets[n])
  {
  }

  lemma EventAdvances(p: Platform, f: Fleet, s: System, e: Event)
    requires Healthy(f, s.c) && Admissible(p, f, s, World(e)) && !e.Edit?
    ensures Advances(f, s.c, Happen(s.c, e))
  {
    var d := Happen(s.c, e);
    forall n | n in f.Nodes()
      ensures n in d.sets && NodeAdvances(f.services[n], s.c.sets[n], d.sets[n])
    {
      NodeEventAdvances(f.services[n], s.c, n, e);
    }
  }

  lemma AdvanceKeepsInv(p: Platform, f: Fleet, s: System, d: Cluster)
    requires Inv(p, f, s) && Advances(f, s.c, d)
    ensures Inv(p, f, System(d, s.at))
  {
  }

  lemma EditKeepsInv(p: Platform, f: Fleet, s: System, inst: Instance)
    requires Inv(p, f, s) && Admissible(p, f, s, World(Edit(inst)))
    ensures Inv(p, f, Step(p, s, World(Edit(inst))))
  {
  }

  // ---- The operator keeps the invariant ----

  predicate SameNodes(f: Fleet, c: Cluster, d: Cluster) {
    forall n | n in f.Nodes() :: n in c.sets && n in d.sets && d.sets[n] == c.sets[n]
  }

  /** A call that leaves the nodes alone only moves the program point. */
  lemma MoveKeepsInv(p: Platform, f: Fleet, s: System, t: System)
    requires Inv(p, f, s)
    requires SameNodes(f, s.c, t.c)
    requires t.c.teamcity == s.c.teamcity || (t.c.teamcity.None? && t.at.Rest?)
    requires WellFormed(t.at)
    requires !t.at.Rest? ==> Holds(p, f, s.c, t.at.inst) && Learned(p, f, t.at, s.c.sets[f.main])
    ensures Inv(p, f, t)
  {
  }

  /** Away from the builder pass only the replica is written, and never the TeamCity object. */
  predicate UpgradeMove(s: System, t: System) {
    && (t.c.teamcity == s.c.teamcity || (t.c.teamcity.None? && t.at.Rest?))
    && (!t.at.Rest? ==>
          && (if s.at.Rest? then s.c.teamcity == Some(t.at.inst) else t.at.inst == s.at.inst)
          && (InDetection(t.at) || InHandler(t.at) || InPersist(t.at) || InFinalizer(t.at) || t.at.Support?))
    && forall n | n in s.c.sets && (s.at.Rest? || n != ReplicaName(s.at.inst)) ::
        n in t.c.sets && t.c.sets[n] == s.c.sets[n]
  }

  lemma UpgradeCallMoves(p: Platform, s: System, ok: bool)
    requires WellFormed(s.at)
    requires s.at.Rest? || InDetection(s.at) || InHandler(s.at) || InPersist(s.at) || InFinalizer(s.at)
    ensures UpgradeMove(s, Call(p, s, ok))
  {
  }

  lemma OutsideBuilderLearnsNothing(p: Platform, f: Fleet, at: Point, x: StatefulSet)
    requires InDetection(at) || InHandler(at) || InPersist(at) || InFinalizer(at) || at.Support?
    requires Member(f, at.inst)
    ensures Learned(p, f, at, x)
  {
  }

  lemma UpgradeMoveKeepsInv(p: Platform, f: Fleet, s: System, t: System)
    requires Inv(p, f, s) && UpgradeMove(s, t) && WellFormed(t.at)
    ensures Inv(p, f, t)
  {
    assert SameNodes(f, s.c, t.c) by {
      if !s.at.Rest? {
        assert |ReplicaName(s.at.inst)| > |f.main|;
      }
    }
    if !t.at.Rest? {
      OutsideBuilderLearnsNothing(p, f, t.at, s.c.sets[f.main]);
    }
    MoveKeepsInv(p, f, s, t);
  }

  /** Pruning spares the fleet: the main node has another role, the secondaries are in the spec. */
  lemma PruneKeepsInv(p: Platform, f: Fleet, s: System, ok: bool)
    requires Inv(p, f, s)
    requires s.at.Obsolete? || s.at.Prune?
    ensures Inv(p, f, CallGate(p, s, ok))
  {
    if s.at.Obsolete? {
      assert ObsoleteNames(s.c, s.at.inst) !! f.Nodes();
    } else {
      assert Ordering.First(s.at.rest) !in f.Nodes();
    }
    MoveKeepsInv(p, f, s, CallGate(p, s, ok));
  }

  /** Reading the generation before the revisions makes the two reads as good as one. */
  lemma GateKeepsInv(p: Platform, f: Fleet, s: System, ok: bool)
    requires Inv(p, f, s)
    requires s.at.GateGeneration? || s.at.GateRevision?
    ensures Inv(p, f, CallGate(p, s, ok))
  {
    assert Rolling(f.services[f.main], s.c.sets[f.main]);
    MoveKeepsInv(p, f, s, CallGate(p, s, ok));
  }

  lemma GateOngoingKeepsInv(p: Platform, f: Fleet, s: System, ok: bool)
    requires Inv(p, f, s)
    requires s.at.GateOngoing?
    ensures Inv(p, f, CallGate(p, s, ok))
  {
    MoveKeepsInv(p, f, s, CallGate(p, s, ok));
  }

  lemma MainHookKeepsInv(p: Platform, f: Fleet, s: System, ok: bool)
    requires Inv(p, f, s)
    requires InMain(s.at) && !s.at.MainWrite?
    ensures Inv(p, f, CallMain(p, s, ok))
  {
    assert s.at.inst.main in AllNodes(s.at.inst);
    assert Rolling(f.services[f.main], s.c.sets[f.main]);
    MoveKeepsInv(p, f, s, CallMain(p, s, ok));
  }

  lemma NodeHookKeepsInv(p: Platform, f: Fleet, s: System, ok: bool)
    requires Inv(p, f, s)
    requires InNode(s.at) && !s.at.NodeWrite?
    ensures Inv(p, f, CallNode(p, s, ok))
  {
    if s.at.LastCheck? {
      MoveKeepsInv(p, f, s, CallNode(p, s, ok));
      return;
    }
    var node := NodeAt(s.at.inst, s.at.j);
    assert node in AllNodes(s.at.inst) && node.name in SecondaryNames(s.at.inst);
    assert Rolling(f.services[node.name], s.c.sets[node.name]);
    MoveKeepsInv(p, f, s, CallNode(p, s, ok));
  }

  /** Node `n` is written and changes: it was settled, and the others stay as they are. */
  predicate Written(p: Platform, f: Fleet, inst: Instance, n: string, c: Cluster, d: Cluster) {
    && Member(f, inst) && n in f.Nodes() && n in c.sets
    && d == c.(sets := c.sets[n := Store(c.sets[n], p.write(Wanted(f, inst, n), c.sets[n].template))])
  }

  lemma ChangeKeepsReached(p: Platform, f: Fleet, inst: Instance, n: string, c: Cluster, d: Cluster)
    requires WriteSettles(p) && f.Valid()
    requires Reached(p, f, c) && c.teamcity == Some(inst) && Written(p, f, inst, n, c, d)
    requires Settled(c.sets[n]) && !NodeConforms(p, f, inst, n, c.sets[n])
    requires n == f.main || (Settled(c.sets[f.main]) && NodeConforms(p, f, inst, f.main, c.sets[f.main]))
    ensures Reached(p, f, d) && NodeConforms(p, f, inst, n, d.sets[n])
  {
    assert forall m | m in f.Nodes() && m != n :: d.sets[m] == c.sets[m];
  }

  lemma WriteKeepsReached(p: Platform, f: Fleet, inst: Instance, n: string, c: Cluster, d: Cluster)
    requires WriteSettles(p) && f.Valid()
    requires Reached(p, f, c) && Holds(p, f, c, inst) && Written(p, f, inst, n, c, d)
    requires n == f.main || (Settled(c.sets[f.main]) && NodeConforms(p, f, inst, f.main, c.sets[f.main]))
    ensures Reached(p, f, d) && Holds(p, f, d, inst)
    ensures NodeConforms(p, f, inst, n, d.sets[n])
    ensures Settled(c.sets[n]) && NodeConforms(p, f, inst, n, c.sets[n]) ==> d == c
  {
    if NodeConforms(p, f, inst, n, c.sets[n]) {
      assert d.sets == c.sets;
    } else {
      ChangeKeepsReached(p, f, inst, n, c, d);
    }
  }

  lemma MainWriteKeepsInv(p: Platform, f: Fleet, s: System, ok: bool)
    requires WriteSettles(p) && Inv(p, f, s)
    requires s.at.MainWrite?
    ensures Inv(p, f, CallMain(p, s, ok))
  {
    var inst := s.at.inst;
    assert inst.main in AllNodes(inst);
    assert Rolling(f.services[f.main], s.c.sets[f.main]);
    if ok {
      WriteKeepsReached(p, f, inst, f.main, s.c, Apply(p, s.c, MainRole, inst.main).value);
    }
  }

  lemma NodeWriteIsWrite(p: Platform, f: Fleet, s: System)
    requires Inv(p, f, s) && s.at.NodeWrite?
    ensures var node := NodeAt(s.at.inst, s.at.j);
            && node.name in f.secondaries
            && Apply(p, s.c, SecondaryRole, node).Some?
            && Written(p, f, s.at.inst, node.name, s.c, Apply(p, s.c, SecondaryRole, node).value)
  {
    var node := NodeAt(s.at.inst, s.at.j);
    assert node in AllNodes(s.at.inst) && node.name in SecondaryNames(s.at.inst);
    assert Rolling(f.services[node.name], s.c.sets[node.name]);
  }

  lemma NextNodeKeepsInv(p: Platform, f: Fleet, s: System, d: Cluster)
    requires Inv(p, f, s) && s.at.NodeWrite?
    requires Reached(p, f, d) && Holds(p, f, d, s.at.inst) && d.sets[f.main] == s.c.sets[f.main]
    ensures Inv(p, f, System(d, NextNode(s.at.inst, s.at.j)))
  {
  }

  lemma NodeWriteKeepsInv(p: Platform, f: Fleet, s: System, ok: bool)
    requires WriteSettles(p) && Inv(p, f, s)
    requires s.at.NodeWrite?
    ensures Inv(p, f, CallNode(p, s, ok))
  {
    var node := NodeAt(s.at.inst, s.at.j);
    NodeWriteIsWrite(p, f, s);
    if ok {
      var d := Apply(p, s.c, SecondaryRole, node).value;
      WriteKeepsReached(p, f, s.at.inst, node.name, s.c, d);
      NextNodeKeepsInv(p, f, s, d);
    } else {
      MoveKeepsInv(p, f, s, CallNode(p, s, ok));
    }
  }

  lemma MainCallKeepsInv(p: Platform, f: Fleet, s: System, ok: bool)
    requires WriteSettles(p) && Inv(p, f, s) && InMain(s.at)
    ensures Inv(p, f, CallMain(p, s, ok))
  {
    if s.at.MainWrite? {
      MainWriteKeepsInv(p, f, s, ok);
    } else {
      MainHookKeepsInv(p, f, s, ok);
    }
  }

  lemma GateCallKeepsInv(p: Platform, f: Fleet, s: System, ok: bool)
    requires Inv(p, f, s) && InGate(s.at)
    ensures Inv(p, f, CallGate(p, s, ok))
  {
    if s.at.Obsolete? || s.at.Prune? {
      PruneKeepsInv(p, f, s, ok);
    } else if s.at.GateOngoing? {
      GateOngoingKeepsInv(p, f, s, ok);
    } else {
      GateKeepsInv(p, f, s, ok);
    }
  }

  lemma NodeCallKeepsInv(p: Platform, f: Fleet, s: System, ok: bool)
    requires WriteSettles(p) && Inv(p, f, s) && InNode(s.at)
    ensures Inv(p, f, CallNode(p, s, ok))
  {
    if s.at.NodeWrite? {
      NodeWriteKeepsInv(p, f, s, ok);
    } else {
      NodeHookKeepsInv(p, f, s, ok);
    }
  }

  lemma CallKeepsInv(p: Platform, f: Fleet, s: System, ok: bool)
    requires WriteSettles(p) && Inv(p, f, s)
    ensures Inv(p, f, Call(p, s, ok))
  {
    CallByGroup(p, s, ok);
    if InMain(s.at) {
      MainCallKeepsInv(p, f, s, ok);
    } else if InGate(s.at) {
      GateCallKeepsInv(p, f, s, ok);
    } else if InNode(s.at) {
      NodeCallKeepsInv(p, f, s, ok);
    } else {
      UpgradeCallMoves(p, s, ok);
      UpgradeMoveKeepsInv(p, f, s, Call(p, s, ok));
    }
  }

  lemma StepKeepsInv(p: Platform, f: Fleet, s: System, a: Act)
    requires WriteSettles(p) && Inv(p, f, s) && Admissible(p, f, s, a)
    ensures Inv(p, f, Step(p, s, a))
  {
    match a
    case Op(ok) => CallKeepsInv(p, f, s, ok);
    case Crash => MoveKeepsInv(p, f, s, Step(p, s, a));
    case World(e) =>
      if e.Edit? {
        EditKeepsInv(p, f, s, e.inst);
      } else {
        EventAdvances(p, f, s, e);
        AdvanceKeepsInv(p, f, s, Happen(s.c, e));
      }
  }

  // ---- Theorems over runs ----

  /** Where a fleet may start: every node settled, no pass under way. */
  ghost predicate AtRest(p: Platform, f: Fleet, s: System) {
    f.Valid() && s.at.Rest? && Reached(p, f, s.c) && SecondariesSettled(f, s.c)
  }

  lemma {:induction false} InvAlong(p: Platform, f: Fleet, s: System, acts: seq<Act>, i: nat)
    requires WriteSettles(p)
    requires Inv(p, f, s) && AdmissibleRun(p, f, s, acts) && i <= |acts|
    ensures Inv(p, f, Trace(p, s, acts)[i])
  {
    if i > 0 {
      InvAlong(p, f, s, acts, i - 1);
      StepKeepsInv(p, f, Trace(p, s, acts)[i - 1], acts[i - 1]);
    }
  }

  /** In every state of every admissible run the main node serves or all secondaries do. */
  lemma AlwaysServing(p: Platform, f: Fleet, s: System, acts: seq<Act>)
    requires WriteSettles(p)
    requires AtRest(p, f, s) && AdmissibleRun(p, f, s, acts)
    ensures forall i | 0 <= i <= |acts| ::
              var c := Trace(p, s, acts)[i].c;
              || (f.main in c.sets && c.sets[f.main].ready)
              || (forall n | n in f.secondaries :: n in c.sets && c.sets[n].ready)
  {
    forall i | 0 <= i <= |acts|
      ensures var c := Trace(p, s, acts)[i].c;
              || (f.main in c.sets && c.sets[f.main].ready)
              || (forall n | n in f.secondaries :: n in c.sets && c.sets[n].ready)
    {
      InvAlong(p, f, s, acts, i);
    }
  }

  /** If node `n` is rewritten between `c` and `d` then the others are in a state to bear it. */
  predicate TakesTurn(f: Fleet, c: Cluster, d: Cluster, n: string) {
    && n in c.sets && n in d.sets && f.main in c.sets
    && (c.sets[n].template != d.sets[n].template ==>
          if n == f.main then SecondariesSettled(f, c) else Settled(c.sets[f.main]))
  }

  lemma CallTakesTurn(p: Platform, f: Fleet, s: System, ok: bool, n: string)
    requires Inv(p, f, s) && n in f.Nodes()
    requires n in Call(p, s, ok).c.sets
    ensures TakesTurn(f, s.c, Call(p, s, ok).c, n)
  {
    var t := Call(p, s, ok);
    if t.c.sets[n].template != s.c.sets[n].template {
      TemplateWriters(p, s, ok, n);
      if s.at.MainWrite? {
        MainChangeMeansSecondariesSettled(p, f, s);
      }
    }
  }

  lemma MainChangeMeansSecondariesSettled(p: Platform, f: Fleet, s: System)
    requires Inv(p, f, s) && !s.at.Rest?
    requires !NodeConforms(p, f, s.at.inst, f.main, s.c.sets[f.main])
    ensures SecondariesSettled(f, s.c)
  {
  }

  lemma StepTakesTurn(p: Platform, f: Fleet, s: System, a: Act, n: string)
    requires Inv(p, f, s) && Admissible(p, f, s, a) && n in f.Nodes()
    requires n in Step(p, s, a).c.sets
    ensures TakesTurn(f, s.c, Step(p, s, a).c, n)
  {
    match a
    case Crash =>
    case World(e) =>
      if !e.Edit? {
        EventAdvances(p, f, s, e);
      }
    case Op(ok) => CallTakesTurn(p, f, s, ok, n);
  }

  /** Nodes change in turn: a secondary is rewritten only next to a main node that is rolled out,
      and the main node is rewritten only while every secondary is rolled out. */
  lemma WritesTakeTurns(p: Platform, f: Fleet, s: System, acts: seq<Act>, i: nat, n: string)
    requires WriteSettles(p)
    requires AtRest(p, f, s) && AdmissibleRun(p, f, s, acts) && i < |acts| && n in f.Nodes()
    ensures TakesTurn(f, Trace(p, s, acts)[i].c, Trace(p, s, acts)[i + 1].c, n)
  {
    InvAlong(p, f, s, acts, i);
    InvAlong(p, f, s, acts, i + 1);
    StepTakesTurn(p, f, Trace(p, s, acts)[i], acts[i], n);
  }
}
