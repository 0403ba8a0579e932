/** The delete-and-create path for the immutable service name. */
module Recreate {
  import opened PodTree
  import opened PodTemplate
  import opened Stages
  import opened Cluster
  import opened Protocol
  import opened StageProtocol
  import Ordering

  // ---- A StatefulSet keeps its service name for life ----

  predicate UidsFresh(c: Cluster) {
    && (forall n | n in c.sets :: c.sets[n].uid < c.nextUid)
    && (forall m, n | m in c.sets && n in c.sets && c.sets[m].uid == c.sets[n].uid :: m == n)
  }

  /** Whatever lives in `d` is either younger than `c` or lived there under the same names. */
  predicate Descended(c: Cluster, d: Cluster) {
    && c.nextUid <= d.nextUid
    && forall n | n in d.sets && d.sets[n].uid < c.nextUid ::
         n in c.sets && c.sets[n].uid == d.sets[n].uid && c.sets[n].serviceName == d.sets[n].serviceName
  }

  /** Nothing new, and whatever is left kept its uid and its service name. */
  predicate Kept(c: Cluster, d: Cluster) {
    && d.nextUid == c.nextUid
    && forall n | n in d.sets ::
         n in c.sets && d.sets[n].uid == c.sets[n].uid && d.sets[n].serviceName == c.sets[n].serviceName
  }

  /** One StatefulSet more, under a name that was free and with the next uid. */
  predicate Made(c: Cluster, d: Cluster, name: string) {
    && d.nextUid == c.nextUid + 1
    && name !in c.sets && name in d.sets && d.sets[name].uid == c.nextUid
    && d.sets == c.sets[name := d.sets[name]]
  }

  lemma KeptOrMade(c: Cluster, d: Cluster)
    requires UidsFresh(c)
    requires Kept(c, d) || exists name :: Made(c, d, name)
    ensures UidsFresh(d) && Descended(c, d)
  {
    if !Kept(c, d) {
      var name :| Made(c, d, name);
      assert forall n | n in d.sets :: n == name || (n in c.sets && d.sets[n] == c.sets[n]);
    }
  }

  lemma ApplyMakes(p: Platform, c: Cluster, role: Role, node: Node)
    requires Apply(p, c, role, node).Some?
    ensures var d := Apply(p, c, role, node).value; Kept(c, d) || Made(c, d, node.name)
  {
  }

  lemma UpgradeCallDescended(p: Platform, s: System, ok: bool)
    requires WellFormed(s.at)
    requires s.at.Rest? || InDetection(s.at) || InPersist(s.at) || InFinalizer(s.at)
    ensures Kept(s.c, Call(p, s, ok).c)
  {
  }

  lemma HandlerCallDescended(p: Platform, s: System, ok: bool)
    requires WellFormed(s.at) && InHandler(s.at)
    ensures var d := CallHandler(p, s, ok).c; Kept(s.c, d) || exists name :: Made(s.c, d, name)
  {
    if s.at.ReplicaMake? && ok && ReplicaName(s.at.inst) !in s.c.sets {
      assert Made(s.c, CallHandler(p, s, ok).c, ReplicaName(s.at.inst));
    }
  }

  lemma MainCallDescended(p: Platform, s: System, ok: bool)
    requires WellFormed(s.at) && InMain(s.at)
    ensures var d := CallMain(p, s, ok).c; Kept(s.c, d) || exists name :: Made(s.c, d, name)
  {
    if s.at.MainWrite? && Apply(p, s.c, MainRole, s.at.inst.main).Some? {
      ApplyMakes(p, s.c, MainRole, s.at.inst.main);
    }
  }

  lemma GateCallDescended(p: Platform, s: System, ok: bool)
    requires WellFormed(s.at) && InGate(s.at)
    ensures Kept(s.c, CallGate(p, s, ok).c)
  {
  }

  lemma NodeCallDescended(p: Platform, s: System, ok: bool)
    requires WellFormed(s.at) && InNode(s.at)
    ensures var d := CallNode(p, s, ok).c; Kept(s.c, d) || exists name :: Made(s.c, d, name)
  {
    if s.at.NodeWrite? && Apply(p, s.c, SecondaryRole, NodeAt(s.at.inst, s.at.j)).Some? {
      ApplyMakes(p, s.c, SecondaryRole, NodeAt(s.at.inst, s.at.j));
    }
  }

  lemma EventDescended(c: Cluster, e: Event)
    ensures Kept(c, Happen(c, e))
  {
  }

  lemma StepDescended(p: Platform, s: System, a: Act)
    requires WellFormed(s.at) && UidsFresh(s.c)
    ensures var t := Step(p, s, a); UidsFresh(t.c) && Descended(s.c, t.c)
  {
    match a
    case Crash =>
    case World(e) =>
      EventDescended(s.c, e);
      KeptOrMade(s.c, Happen(s.c, e));
    case Op(ok) =>
      CallByGroup(p, s, ok);
      if InMain(s.at) {
        MainCallDescended(p, s, ok);
      } else if InGate(s.at) {
        GateCallDescended(p, s, ok);
      } else if InNode(s.at) {
        NodeCallDescended(p, s, ok);
      } else if InHandler(s.at) {
        HandlerCallDescended(p, s, ok);
      } else {
        UpgradeCallDescended(p, s, ok);
      }
      KeptOrMade(s.c, Step(p, s, a).c);
  }

  lemma {:induction false} RunDescended(p: Platform, s: System, acts: seq<Act>, i: nat, j: nat)
    requires WellFormed(s.at) && UidsFresh(s.c) && i <= j <= |acts|
    ensures UidsFresh(Trace(p, s, acts)[i].c) && UidsFresh(Trace(p, s, acts)[j].c)
    ensures Descended(Trace(p, s, acts)[i].c, Trace(p, s, acts)[j].c)
    decreases j
  {
    if j > 0 {
      RunDescended(p, s, acts, if i < j then i else j - 1, j - 1);
      StepDescended(p, Trace(p, s, acts)[j - 1], acts[j - 1]);
    }
  }

  /** Two sightings of one uid anywhere in a run show the same name and the same service name,
      whatever is edited, fails or crashes in between. */
  lemma UidKeepsServiceName(p: Platform, s: System, acts: seq<Act>, i: nat, j: nat, m: string, n: string)
    requires WellFormed(s.at) && UidsFresh(s.c) && i <= j <= |acts|
    requires m in Trace(p, s, acts)[i].c.sets && n in Trace(p, s, acts)[j].c.sets
    requires Trace(p, s, acts)[i].c.sets[m].uid == Trace(p, s, acts)[j].c.sets[n].uid
    ensures m == n
    ensures Trace(p, s, acts)[i].c.sets[m].serviceName == Trace(p, s, acts)[j].c.sets[n].serviceName
  {
    RunDescended(p, s, acts, i, j);
  }

  // ---- Deletions happen under the annotation and for real drift ----

  predicate Justified(inst: Instance, node: Node, c: Cluster) {
    inst.allowRecreate && (node.name in c.sets ==> Drifted(node, c.sets[node.name]))
  }

  predicate RemovalsJustified(s: System) {
    && WellFormed(s.at)
    && (s.at.MainRemove? ==> Justified(s.at.inst, s.at.inst.main, s.c))
    && (s.at.NodeRemove? ==> Justified(s.at.inst, NodeAt(s.at.inst, s.at.j), s.c))
  }

  lemma KeptKeepsJustified(inst: Instance, node: Node, c: Cluster, d: Cluster)
    requires Justified(inst, node, c) && Kept(c, d)
    ensures Justified(inst, node, d)
  {
  }

  lemma NodeCallKeepsJustified(p: Platform, s: System, ok: bool)
    requires RemovalsJustified(s) && InNode(s.at)
    ensures RemovalsJustified(CallNode(p, s, ok))
  {
  }

  lemma MainCallKeepsJustified(p: Platform, s: System, ok: bool)
    requires RemovalsJustified(s) && InMain(s.at)
    ensures RemovalsJustified(CallMain(p, s, ok))
  {
  }

  lemma OtherCallsAskForNoRemoval(p: Platform, s: System, ok: bool)
    requires WellFormed(s.at) && !InMain(s.at) && !InNode(s.at)
    ensures !Call(p, s, ok).at.MainRemove? && !Call(p, s, ok).at.NodeRemove?
  {
  }

  lemma CallKeepsJustified(p: Platform, s: System, ok: bool)
    requires RemovalsJustified(s)
    ensures RemovalsJustified(Call(p, s, ok))
  {
    if InMain(s.at) {
      CallByGroup(p, s, ok);
      MainCallKeepsJustified(p, s, ok);
    } else if InNode(s.at) {
      CallByGroup(p, s, ok);
      NodeCallKeepsJustified(p, s, ok);
    } else {
      OtherCallsAskForNoRemoval(p, s, ok);
    }
  }

  lemma StepKeepsJustified(p: Platform, s: System, a: Act)
    requires RemovalsJustified(s)
    ensures RemovalsJustified(Step(p, s, a))
  {
    match a
    case Crash =>
    case Op(ok) => CallKeepsJustified(p, s, ok);
    case World(e) =>
      EventDescended(s.c, e);
      if s.at.MainRemove? {
        KeptKeepsJustified(s.at.inst, s.at.inst.main, s.c, Happen(s.c, e));
      } else if s.at.NodeRemove? {
        KeptKeepsJustified(s.at.inst, NodeAt(s.at.inst, s.at.j), s.c, Happen(s.c, e));
      }
  }

  lemma {:induction false} JustifiedAlong(p: Platform, s: System, acts: seq<Act>, i: nat)
    requires RemovalsJustified(s) && i <= |acts|
    ensures RemovalsJustified(Trace(p, s, acts)[i])
  {
    if i > 0 {
      JustifiedAlong(p, s, acts, i - 1);
      StepKeepsJustified(p, Trace(p, s, acts)[i - 1], acts[i - 1]);
    }
  }

  /** A StatefulSet named by the spec of the pass begins to terminate only if that spec carries the
      annotation and asks for another service name; everything else that the operator deletes is
      the update replica or a secondary that the spec no longer names. */
  lemma DeletionNeedsAnnotationAndDrift(p: Platform, s: System, ok: bool, n: string)
    requires RemovalsJustified(s)
    requires n in s.c.sets && n in Call(p, s, ok).c.sets
    requires !s.c.sets[n].terminating && Call(p, s, ok).c.sets[n].terminating
    ensures || (s.at.MainRemove? && n == s.at.inst.main.name && s.at.inst.allowRecreate
                && Drifted(s.at.inst.main, s.c.sets[n]))
            || (s.at.NodeRemove? && n == NodeAt(s.at.inst, s.at.j).name && s.at.inst.allowRecreate
                && Drifted(NodeAt(s.at.inst, s.at.j), s.c.sets[n]))
            || (s.at.ReplicaDelete? && n == ReplicaName(s.at.inst))
            || (s.at.Prune? && n in s.at.rest)
  {
  }

  // ---- One secondary at a time ----

  predicate Present(inst: Instance, c: Cluster, j: nat)
    requires j < |inst.secondaries|
  {
    inst.secondaries[j].name in c.sets
  }

  predicate Stale(inst: Instance, c: Cluster, j: nat)
    requires j < |inst.secondaries|
  {
    Present(inst, c, j) && Drifted(inst.secondaries[j], c.sets[inst.secondaries[j].name])
  }

  predicate Leaving(inst: Instance, c: Cluster, j: nat)
    requires j < |inst.secondaries|
  {
    Present(inst, c, j) && c.sets[inst.secondaries[j].name].terminating
  }

  predicate CleanBefore(inst: Instance, c: Cluster, j: nat)
    requires j <= |inst.secondaries|
  {
    forall i | 0 <= i < j :: !Stale(inst, c, i)
  }

  /** A secondary that is on its way out has to change, and those before it have changed already. */
  predicate LeavingInOrder(inst: Instance, c: Cluster) {
    forall j | 0 <= j < |inst.secondaries| && Leaving(inst, c, j) :: Stale(inst, c, j) && CleanBefore(inst, c, j)
  }

  /** A service name that is in line stays in line. */
  predicate NoNewStale(inst: Instance, c: Cluster, d: Cluster) {
    forall j | 0 <= j < |inst.secondaries| && Stale(inst, d, j) :: Stale(inst, c, j)
  }

  predicate InTurn(inst: Instance, s: System) {
    && WellFormed(s.at)
    && (s.c.teamcity.None? || s.c.teamcity == Some(inst))
    && (!s.at.Rest? ==> s.at.inst == inst)
    && LeavingInOrder(inst, s.c)
    && match s.at
       case Prune(_, rest) => rest !! SecondaryNames(inst)
       case NodeHook(_, j) => CleanBefore(inst, s.c, j)
       case NodeRemove(_, j) => CleanBefore(inst, s.c, j) && (Present(inst, s.c, j) ==> Stale(inst, s.c, j))
       case NodeRecheck(_, j) => CleanBefore(inst, s.c, j) && (Present(inst, s.c, j) ==> Stale(inst, s.c, j))
       case NodeWrite(_, j) =>
         CleanBefore(inst, s.c, j) && (Stale(inst, s.c, j) ==> inst.secondaries[j].serviceName != "")
       case _ => true
  }

  /** The spec stays, and the look at a StatefulSet that was just deleted does not fail, unless
      the API server would refuse the write that follows. */
  predicate Undisturbed(inst: Instance, s: System, a: Act) {
    match a
    case World(e) => !e.Edit?
    case Op(ok) =>
      s.at.NodeRecheck? && s.at.inst == inst && s.at.j < |inst.secondaries| && Present(inst, s.c, s.at.j) && !ok ==>
        inst.secondaries[s.at.j].serviceName != ""
    case Crash => true
  }

  /** No secondary of the spec starts to leave, comes into being or changes its service name. */
  predicate SecondariesRest(inst: Instance, c: Cluster, d: Cluster) {
    forall j | 0 <= j < |inst.secondaries| && Present(inst, d, j) ::
      var n := inst.secondaries[j].name;
      && n in c.sets
      && d.sets[n].serviceName == c.sets[n].serviceName
      && d.sets[n].terminating == c.sets[n].terminating
  }

  lemma RestKeepsOrder(inst: Instance, c: Cluster, d: Cluster)
    requires LeavingInOrder(inst, c) && SecondariesRest(inst, c, d)
    ensures LeavingInOrder(inst, d) && NoNewStale(inst, c, d)
    ensures forall j | 0 <= j <= |inst.secondaries| && CleanBefore(inst, c, j) :: CleanBefore(inst, d, j)
  {
    forall j | 0 <= j < |inst.secondaries| && Stale(inst, d, j) ensures Stale(inst, c, j) {
      assert Present(inst, d, j);
    }
    forall j | 0 <= j < |inst.secondaries| && Leaving(inst, d, j) ensures Stale(inst, d, j) && CleanBefore(inst, d, j) {
      assert Present(inst, d, j);
      assert Leaving(inst, c, j);
    }
  }

  lemma EventKeepsTurn(p: Platform, inst: Instance, s: System, e: Event)
    requires InTurn(inst, s) && !e.Edit?
    ensures InTurn(inst, System(Happen(s.c, e), s.at))
    ensures NoNewStale(inst, s.c, Happen(s.c, e))
  {
    var d := Happen(s.c, e);
    assert SecondariesRest(inst, s.c, d);
    RestKeepsOrder(inst, s.c, d);
    if s.at.NodeRemove? || s.at.NodeRecheck? || s.at.NodeWrite? {
      assert Present(inst, d, s.at.j) ==> Present(inst, s.c, s.at.j);
    }
  }

  lemma UpgradeKeepsTurn(p: Platform, inst: Instance, s: System, ok: bool)
    requires InTurn(inst, s) && DistinctNames(inst)
    requires s.at.Rest? || InDetection(s.at) || InPersist(s.at) || InFinalizer(s.at)
    ensures InTurn(inst, Call(p, s, ok))
    ensures NoNewStale(inst, s.c, Call(p, s, ok).c)
  {
    var d := Call(p, s, ok).c;
    assert d.sets == s.c.sets;
    RestKeepsOrder(inst, s.c, d);
  }

  lemma HandlerKeepsTurn(p: Platform, inst: Instance, s: System, ok: bool)
    requires InTurn(inst, s) && DistinctNames(inst) && InHandler(s.at)
    ensures InTurn(inst, CallHandler(p, s, ok))
    ensures NoNewStale(inst, s.c, CallHandler(p, s, ok).c)
  {
    var d := CallHandler(p, s, ok).c;
    assert SecondariesRest(inst, s.c, d);
    RestKeepsOrder(inst, s.c, d);
  }

  lemma MainKeepsTurn(p: Platform, inst: Instance, s: System, ok: bool)
    requires InTurn(inst, s) && DistinctNames(inst) && InMain(s.at)
    ensures InTurn(inst, CallMain(p, s, ok))
    ensures NoNewStale(inst, s.c, CallMain(p, s, ok).c)
  {
    var d := CallMain(p, s, ok).c;
    assert SecondariesRest(inst, s.c, d);
    RestKeepsOrder(inst, s.c, d);
  }

  lemma GateKeepsTurn(p: Platform, inst: Instance, s: System, ok: bool)
    requires InTurn(inst, s) && DistinctNames(inst) && InGate(s.at)
    ensures InTurn(inst, CallGate(p, s, ok))
    ensures NoNewStale(inst, s.c, CallGate(p, s, ok).c)
  {
    var d := CallGate(p, s, ok).c;
    if s.at.Prune? {
      assert forall j | 0 <= j < |inst.secondaries| :: inst.secondaries[j].name in SecondaryNames(inst);
      assert Ordering.First(s.at.rest) in s.at.rest;
    }
    assert SecondariesRest(inst, s.c, d);
    RestKeepsOrder(inst, s.c, d);
  }

  /** Only the StatefulSet of the secondary `j` may differ. */
  predicate OnlyTouched(inst: Instance, c: Cluster, d: Cluster, j: nat) {
    forall i | 0 <= i < |inst.secondaries| && i != j ::
      var n := inst.secondaries[i].name;
      (n in d.sets <==> n in c.sets) && (n in c.sets ==> d.sets[n] == c.sets[n])
  }

  lemma TouchedKeepsOthers(inst: Instance, c: Cluster, d: Cluster, j: nat)
    requires OnlyTouched(inst, c, d, j) && j < |inst.secondaries| && CleanBefore(inst, c, j)
    requires LeavingInOrder(inst, c)
    requires Leaving(inst, d, j) ==> Stale(inst, d, j)
    requires Stale(inst, d, j) ==> Stale(inst, c, j)
    ensures LeavingInOrder(inst, d) && CleanBefore(inst, d, j) && NoNewStale(inst, c, d)
  {
    forall i | 0 <= i < |inst.secondaries| && Stale(inst, d, i) ensures Stale(inst, c, i) {
      if i != j {
        assert inst.secondaries[i].name in c.sets;
      }
    }
    forall i | 0 <= i < |inst.secondaries| && Leaving(inst, d, i) ensures Stale(inst, d, i) && CleanBefore(inst, d, i) {
      if i != j {
        assert Leaving(inst, c, i);
      }
    }
  }

  lemma RemoveKeepsTurn(p: Platform, inst: Instance, s: System, ok: bool)
    requires InTurn(inst, s) && DistinctNames(inst) && s.at.NodeRemove?
    ensures InTurn(inst, CallNode(p, s, ok))
    ensures NoNewStale(inst, s.c, CallNode(p, s, ok).c)
  {
    var j, d := s.at.j, CallNode(p, s, ok).c;
    FoundByName(inst.secondaries, j);
    assert OnlyTouched(inst, s.c, d, j);
    TouchedKeepsOthers(inst, s.c, d, j);
  }

  lemma WriteKeepsTurn(p: Platform, inst: Instance, s: System, ok: bool)
    requires InTurn(inst, s) && DistinctNames(inst) && s.at.NodeWrite?
    ensures InTurn(inst, CallNode(p, s, ok))
    ensures NoNewStale(inst, s.c, CallNode(p, s, ok).c)
  {
    var j, d := s.at.j, CallNode(p, s, ok).c;
    FoundByName(inst.secondaries, j);
    assert OnlyTouched(inst, s.c, d, j);
    if Apply(p, s.c, SecondaryRole, inst.secondaries[j]).Some? && ok {
      assert !Stale(inst, d, j);
    }
    if Leaving(inst, d, j) {
      assert Leaving(inst, s.c, j);
    }
    TouchedKeepsOthers(inst, s.c, d, j);
  }

  lemma LookKeepsTurn(p: Platform, inst: Instance, s: System, ok: bool)
    requires InTurn(inst, s) && DistinctNames(inst) && Undisturbed(inst, s, Op(ok))
    requires s.at.NodeHook? || s.at.NodeRecheck? || s.at.LastCheck?
    ensures InTurn(inst, CallNode(p, s, ok))
    ensures NoNewStale(inst, s.c, CallNode(p, s, ok).c)
  {
    if !s.at.LastCheck? {
      FoundByName(inst.secondaries, s.at.j);
    }
  }

  lemma StepKeepsTurn(p: Platform, inst: Instance, s: System, a: Act)
    requires InTurn(inst, s) && DistinctNames(inst) && Undisturbed(inst, s, a)
    ensures InTurn(inst, Step(p, s, a))
    ensures NoNewStale(inst, s.c, Step(p, s, a).c)
  {
    match a
    case Crash =>
    case World(e) => EventKeepsTurn(p, inst, s, e);
    case Op(ok) =>
      CallByGroup(p, s, ok);
      if InHandler(s.at) {
        HandlerKeepsTurn(p, inst, s, ok);
      } else if InMain(s.at) {
        MainKeepsTurn(p, inst, s, ok);
      } else if InGate(s.at) {
        GateKeepsTurn(p, inst, s, ok);
      } else if s.at.NodeRemove? {
        RemoveKeepsTurn(p, inst, s, ok);
      } else if s.at.NodeWrite? {
        WriteKeepsTurn(p, inst, s, ok);
      } else if InNode(s.at) {
        LookKeepsTurn(p, inst, s, ok);
      } else {
        UpgradeKeepsTurn(p, inst, s, ok);
      }
  }

  ghost predicate UndisturbedRun(p: Platform, inst: Instance, s: System, acts: seq<Act>)
    requires WellFormed(s.at)
  {
    forall i | 0 <= i < |acts| :: Undisturbed(inst, Trace(p, s, acts)[i], acts[i])
  }

  lemma {:induction false} InTurnAlong(p: Platform, inst: Instance, s: System, acts: seq<Act>, i: nat)
    requires InTurn(inst, s) && DistinctNames(inst) && UndisturbedRun(p, inst, s, acts) && i <= |acts|
    ensures InTurn(inst, Trace(p, s, acts)[i])
    ensures NoNewStale(inst, s.c, Trace(p, s, acts)[i].c)
  {
    if i > 0 {
      InTurnAlong(p, inst, s, acts, i - 1);
      StepKeepsTurn(p, inst, Trace(p, s, acts)[i - 1], acts[i - 1]);
    }
  }

  predicate AtMostOneLeaves(inst: Instance, c: Cluster) {
    forall i, j | 0 <= i < j < |inst.secondaries| :: !(Leaving(inst, c, i) && Leaving(inst, c, j))
  }

  /** However long the list of secondaries is, wherever the operator crashes and whatever call
      fails, no two of them are ever being deleted at the same time. */
  lemma OneSecondaryAtATime(p: Platform, inst: Instance, s: System, acts: seq<Act>, k: nat)
    requires DistinctNames(inst) && s.at.Rest? && s.c.teamcity == Some(inst)
    requires forall j | 0 <= j < |inst.secondaries| :: !Leaving(inst, s.c, j)
    requires UndisturbedRun(p, inst, s, acts) && k <= |acts|
    ensures AtMostOneLeaves(inst, Trace(p, s, acts)[k].c)
  {
    InTurnAlong(p, inst, s, acts, k);
  }
}
