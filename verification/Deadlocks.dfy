/** Where the recreate path and the upgrade get in each other's way. */
module Deadlocks {
  import opened PodTree
  import opened PodTemplate
  import opened Stages
  import opened Cluster
  import opened Protocol
  import opened Recreate
  import opened Passes
  import opened Placing
  import Convergence
  import Ordering

  // ---- Two secondaries at once ----

  ghost predicate CanOverlap(p: Platform, inst: Instance, s: System) {
    WellFormed(s.at) && exists acts: seq<Act> :: OverlapsBy(p, inst, s, acts)
  }

  ghost predicate OverlapsBy(p: Platform, inst: Instance, s: System, acts: seq<Act>)
    requires WellFormed(s.at)
  {
    UndisturbedRun(p, inst, s, acts) && !AtMostOneLeaves(inst, Run(p, s, acts).c)
  }

  lemma RunOfOne(p: Platform, s: System, a: Act, rest: seq<Act>)
    requires WellFormed(s.at)
    ensures Run(p, s, [a] + rest) == Run(p, Step(p, s, a), rest)
    ensures Trace(p, s, [a] + rest) == [s] + Trace(p, Step(p, s, a), rest)
  {
    assert ([a] + rest)[1..] == rest;
  }

  lemma OverlapAfter(p: Platform, inst: Instance, s: System, a: Act)
    requires WellFormed(s.at) && Undisturbed(inst, s, a) && CanOverlap(p, inst, Step(p, s, a))
    ensures CanOverlap(p, inst, s)
  {
    var acts: seq<Act> :| OverlapsBy(p, inst, Step(p, s, a), acts);
    RunOfOne(p, s, a, acts);
    assert OverlapsBy(p, inst, s, [a] + acts);
  }

  lemma HookRemoves(p: Platform, inst: Instance, c: Cluster, j: nat)
    requires j < |inst.secondaries| && DistinctNames(inst) && inst.allowRecreate && Stale(inst, c, j)
    ensures Step(p, System(c, NodeHook(inst, j)), Op(true)) == System(c, NodeRemove(inst, j))
  {
    FoundByName(inst.secondaries, j);
    CallByGroup(p, System(c, NodeHook(inst, j)), true);
  }

  lemma RemovalMarks(p: Platform, inst: Instance, c: Cluster, j: nat)
    requires j < |inst.secondaries| && DistinctNames(inst) && Present(inst, c, j)
    ensures var name := inst.secondaries[j].name;
            && Step(p, System(c, NodeRemove(inst, j)), Op(true)) == System(Remove(c, name), NodeRecheck(inst, j))
            && Leaving(inst, Remove(c, name), j)
            && forall n | n in c.sets && n != name :: n in Remove(c, name).sets && Remove(c, name).sets[n] == c.sets[n]
  {
    FoundByName(inst.secondaries, j);
    CallByGroup(p, System(c, NodeRemove(inst, j)), true);
  }

  lemma {:induction false} OverlapAfterCalls(p: Platform, inst: Instance, s: System, n: nat)
    requires WellFormed(s.at) && CanOverlap(p, inst, Calls(p, s, n))
    ensures CanOverlap(p, inst, s)
    decreases n
  {
    if 0 < n {
      OverlapAfterCalls(p, inst, Call(p, s, true), n - 1);
      OverlapAfter(p, inst, s, Op(true));
    }
  }

  lemma OverlapAfterBecoming(p: Platform, inst: Instance, s: System, t: System)
    requires Becomes(p, s, t) && CanOverlap(p, inst, t)
    ensures CanOverlap(p, inst, s)
  {
    var n: nat :| BecomesIn(p, s, t, n);
    OverlapAfterCalls(p, inst, s, n);
  }

  // ---- Past the secondaries whose service names are in line ----

  lemma CleanIsInLine(inst: Instance, c: Cluster, i: nat)
    requires i < |inst.secondaries| && DistinctNames(inst) && !Stale(inst, c, i)
    ensures InLine(inst, c, i)
  {
    FoundByName(inst.secondaries, i);
  }

  /** With successful calls the pass gets from secondary `i` to the next one that is stale. */
  lemma WalkToStale(p: Platform, inst: Instance, c: Cluster, i: nat, k: nat) returns (d: Cluster)
    requires i <= k < |inst.secondaries| && DistinctNames(inst)
    requires forall m | i <= m < k :: !Stale(inst, c, m)
    ensures Becomes(p, System(c, NodeHook(inst, i)), System(d, NodeHook(inst, k)))
    ensures SameAt(c, d, inst.main.name)
    ensures forall m | 0 <= m < |inst.secondaries| && !(i <= m < k) ::
              (Stale(inst, d, m) <==> Stale(inst, c, m)) && (Leaving(inst, d, m) <==> Leaving(inst, c, m))
  {
    d := Placed(p, inst, c, i, k);
    forall m | i <= m < k ensures InLine(inst, c, m) {
      CleanIsInLine(inst, c, m);
    }
    PlacedCalls(p, inst, c, i, k, System(d, NodePoint(inst, k)));
    WalkRewrites(p, inst, c, i, k);
  }

  lemma WalkRewrites(p: Platform, inst: Instance, c: Cluster, i: nat, k: nat)
    requires i <= k < |inst.secondaries| && DistinctNames(inst)
    requires forall m | i <= m < k :: InLine(inst, c, m)
    ensures var d := Placed(p, inst, c, i, k);
            && SameAt(c, d, inst.main.name)
            && forall m | 0 <= m < |inst.secondaries| && !(i <= m < k) ::
                 (Stale(inst, d, m) <==> Stale(inst, c, m)) && (Leaving(inst, d, m) <==> Leaving(inst, c, m))
  {
    var d := Placed(p, inst, c, i, k);
    PlacingRewrites(p, inst, c, i, k);
    forall m | 0 <= m < |inst.secondaries| && !(i <= m < k)
      ensures (Stale(inst, d, m) <==> Stale(inst, c, m)) && (Leaving(inst, d, m) <==> Leaving(inst, c, m))
    {
      assert inst.secondaries[m].name !in NamesBetween(inst, i, k);
      assert SameAt(c, d, inst.secondaries[m].name);
    }
  }

  lemma {:induction false} FirstStale(inst: Instance, c: Cluster, i: nat, j: nat) returns (k: nat)
    requires i <= j < |inst.secondaries| && Stale(inst, c, j)
    ensures i <= k < |inst.secondaries| && Stale(inst, c, k) && forall m | i <= m < k :: !Stale(inst, c, m)
    decreases j
  {
    if m: nat :| i <= m < j && Stale(inst, c, m) {
      k := FirstStale(inst, c, i, m);
    } else {
      k := j;
    }
  }

  // ---- A recheck that fails ----

  lemma HookOverlaps(p: Platform, inst: Instance, c: Cluster, j: nat, k: nat)
    requires DistinctNames(inst) && inst.allowRecreate && j < k < |inst.secondaries|
    requires Leaving(inst, c, j) && Stale(inst, c, k)
    ensures CanOverlap(p, inst, System(c, NodeHook(inst, k)))
  {
    var d := Remove(c, inst.secondaries[k].name);
    RemovalMarks(p, inst, c, k);
    assert Leaving(inst, d, j);
    assert OverlapsBy(p, inst, System(d, NodeRecheck(inst, k)), []);
    OverlapAfter(p, inst, System(c, NodeRemove(inst, k)), Op(true));
    HookRemoves(p, inst, c, k);
    OverlapAfter(p, inst, System(c, NodeHook(inst, k)), Op(true));
  }

  lemma OverlapFrom(p: Platform, inst: Instance, s: System, d: Cluster, j: nat, k: nat)
    requires DistinctNames(inst) && inst.allowRecreate && j < k < |inst.secondaries|
    requires Becomes(p, s, System(d, NodeHook(inst, k))) && Leaving(inst, d, j) && Stale(inst, d, k)
    ensures CanOverlap(p, inst, s)
  {
    HookOverlaps(p, inst, d, j, k);
    OverlapAfterBecoming(p, inst, s, System(d, NodeHook(inst, k)));
  }

  lemma WalkOverlaps(p: Platform, inst: Instance, c: Cluster, j: nat, k: nat)
    requires DistinctNames(inst) && inst.allowRecreate && j < k < |inst.secondaries|
    requires Leaving(inst, c, j) && Stale(inst, c, k) && forall m | j < m < k :: !Stale(inst, c, m)
    ensures CanOverlap(p, inst, System(c, NodeHook(inst, j + 1)))
  {
    var d := WalkToStale(p, inst, c, j + 1, k);
    OverlapFrom(p, inst, System(c, NodeHook(inst, j + 1)), d, j, k);
  }

  /** A write without a service name is never refused. */
  lemma NamelessWrite(p: Platform, inst: Instance, c: Cluster, j: nat) returns (d: Cluster)
    requires DistinctNames(inst) && j + 1 < |inst.secondaries|
    requires inst.secondaries[j].serviceName == "" && Leaving(inst, c, j)
    ensures Call(p, System(c, NodeWrite(inst, j)), true) == System(d, NodeHook(inst, j + 1))
    ensures Leaving(inst, d, j) && forall m | j < m < |inst.secondaries| :: SameAt(c, d, inst.secondaries[m].name)
  {
    FoundByName(inst.secondaries, j);
    d := Apply(p, c, SecondaryRole, inst.secondaries[j]).value;
  }

  /** The write of a secondary that is being deleted, with a later one that waits for its turn. */
  lemma WriteOverlaps(p: Platform, inst: Instance, c: Cluster, j: nat, k: nat)
    requires DistinctNames(inst) && inst.allowRecreate && j < k < |inst.secondaries|
    requires inst.secondaries[j].serviceName == "" && Leaving(inst, c, j)
    requires Stale(inst, c, k) && forall m | j < m < k :: !Stale(inst, c, m)
    ensures CanOverlap(p, inst, System(c, NodeWrite(inst, j)))
  {
    var d := NamelessWrite(p, inst, c, j);
    forall m | j < m <= k ensures Stale(inst, d, m) <==> Stale(inst, c, m) {
      assert SameAt(c, d, inst.secondaries[m].name);
    }
    WalkOverlaps(p, inst, d, j, k);
    OverlapAfter(p, inst, System(c, NodeWrite(inst, j)), Op(true));
  }

  /** No secondary but `j` has to change its service name or is being deleted. */
  predicate OthersRest(inst: Instance, c: Cluster, j: nat) {
    forall i | 0 <= i < |inst.secondaries| && i != j :: !Stale(inst, c, i) && !Leaving(inst, c, i)
  }

  predicate OnlyOneStirs(inst: Instance, s: System, j: nat) {
    && WellFormed(s.at)
    && (s.c.teamcity.None? || s.c.teamcity == Some(inst))
    && (!s.at.Rest? ==> s.at.inst == inst)
    && OthersRest(inst, s.c, j)
    && match s.at
       case Prune(_, rest) => rest !! SecondaryNames(inst)
       case NodeRemove(_, i) => i == j
       case NodeRecheck(_, i) => i == j
       case _ => true
  }

  lemma RestKeepsOthers(inst: Instance, c: Cluster, d: Cluster, j: nat)
    requires OthersRest(inst, c, j) && SecondariesRest(inst, c, d)
    ensures OthersRest(inst, d, j)
  {
    forall i | 0 <= i < |inst.secondaries| && i != j ensures !Stale(inst, d, i) && !Leaving(inst, d, i) {
      assert !Stale(inst, c, i) && !Leaving(inst, c, i);
      assert Present(inst, d, i) ==> inst.secondaries[i].name in c.sets;
    }
  }

  lemma UpgradeKeepsOne(p: Platform, inst: Instance, s: System, j: nat, ok: bool)
    requires OnlyOneStirs(inst, s, j)
    requires s.at.Rest? || InDetection(s.at) || InPersist(s.at) || InFinalizer(s.at)
    ensures OnlyOneStirs(inst, Call(p, s, ok), j)
  {
    RestKeepsOthers(inst, s.c, Call(p, s, ok).c, j);
  }

  lemma HandlerKeepsOne(p: Platform, inst: Instance, s: System, j: nat, ok: bool)
    requires OnlyOneStirs(inst, s, j) && DistinctNames(inst) && InHandler(s.at)
    ensures OnlyOneStirs(inst, CallHandler(p, s, ok), j)
  {
    RestKeepsOthers(inst, s.c, CallHandler(p, s, ok).c, j);
  }

  lemma MainKeepsOne(p: Platform, inst: Instance, s: System, j: nat, ok: bool)
    requires OnlyOneStirs(inst, s, j) && DistinctNames(inst) && InMain(s.at)
    ensures OnlyOneStirs(inst, CallMain(p, s, ok), j)
  {
    RestKeepsOthers(inst, s.c, CallMain(p, s, ok).c, j);
  }

  lemma GateKeepsOne(p: Platform, inst: Instance, s: System, j: nat, ok: bool)
    requires OnlyOneStirs(inst, s, j) && InGate(s.at)
    ensures OnlyOneStirs(inst, CallGate(p, s, ok), j)
  {
    var d := CallGate(p, s, ok).c;
    if s.at.Prune? {
      assert forall i | 0 <= i < |inst.secondaries| :: inst.secondaries[i].name in SecondaryNames(inst);
      assert Ordering.First(s.at.rest) in s.at.rest;
    }
    assert SecondariesRest(inst, s.c, d);
    RestKeepsOthers(inst, s.c, d, j);
  }

  lemma LookKeepsOne(p: Platform, inst: Instance, s: System, j: nat, ok: bool)
    requires OnlyOneStirs(inst, s, j) && DistinctNames(inst)
    requires s.at.NodeHook? || s.at.NodeRecheck? || s.at.LastCheck?
    ensures OnlyOneStirs(inst, CallNode(p, s, ok), j)
  {
    if !s.at.LastCheck? {
      FoundByName(inst.secondaries, s.at.j);
      assert s.at.j != j ==> !Stale(inst, s.c, s.at.j);
    }
  }

  lemma TouchedKeepsRest(inst: Instance, c: Cluster, d: Cluster, i: nat, j: nat)
    requires i < |inst.secondaries| && OthersRest(inst, c, j) && OnlyTouched(inst, c, d, i)
    requires i != j ==> !Stale(inst, d, i) && !Leaving(inst, d, i)
    ensures OthersRest(inst, d, j)
  {
    forall m | 0 <= m < |inst.secondaries| && m != j ensures !Stale(inst, d, m) && !Leaving(inst, d, m) {
      assert !Stale(inst, c, m) && !Leaving(inst, c, m);
      assert m != i ==> (inst.secondaries[m].name in d.sets <==> inst.secondaries[m].name in c.sets);
    }
  }

  lemma RemovalKeepsOne(p: Platform, inst: Instance, s: System, j: nat, ok: bool)
    requires OnlyOneStirs(inst, s, j) && DistinctNames(inst) && s.at.NodeRemove?
    ensures OnlyOneStirs(inst, CallNode(p, s, ok), j)
  {
    FoundByName(inst.secondaries, s.at.j);
    TouchedKeepsRest(inst, s.c, CallNode(p, s, ok).c, s.at.j, j);
  }

  lemma NodeWriteKeepsOne(p: Platform, inst: Instance, s: System, j: nat, ok: bool)
    requires OnlyOneStirs(inst, s, j) && DistinctNames(inst) && s.at.NodeWrite?
    ensures OnlyOneStirs(inst, CallNode(p, s, ok), j)
  {
    var i, d := s.at.j, CallNode(p, s, ok).c;
    FoundByName(inst.secondaries, i);
    assert i != j ==> !Stale(inst, s.c, i) && !Leaving(inst, s.c, i);
    TouchedKeepsRest(inst, s.c, d, i, j);
  }

  lemma NodeKeepsOne(p: Platform, inst: Instance, s: System, j: nat, ok: bool)
    requires OnlyOneStirs(inst, s, j) && DistinctNames(inst) && InNode(s.at)
    ensures OnlyOneStirs(inst, CallNode(p, s, ok), j)
  {
    if s.at.NodeRemove? {
      RemovalKeepsOne(p, inst, s, j, ok);
    } else if s.at.NodeWrite? {
      NodeWriteKeepsOne(p, inst, s, j, ok);
    } else {
      LookKeepsOne(p, inst, s, j, ok);
    }
  }

  lemma StepKeepsOne(p: Platform, inst: Instance, s: System, j: nat, a: Act)
    requires OnlyOneStirs(inst, s, j) && DistinctNames(inst) && Undisturbed(inst, s, a)
    ensures OnlyOneStirs(inst, Step(p, s, a), j)
  {
    match a
    case Crash =>
    case World(e) => RestKeepsOthers(inst, s.c, Happen(s.c, e), j);
    case Op(ok) =>
      CallByGroup(p, s, ok);
      if InHandler(s.at) {
        HandlerKeepsOne(p, inst, s, j, ok);
      } else if InMain(s.at) {
        MainKeepsOne(p, inst, s, j, ok);
      } else if InGate(s.at) {
        GateKeepsOne(p, inst, s, j, ok);
      } else if InNode(s.at) {
        NodeKeepsOne(p, inst, s, j, ok);
      } else {
        UpgradeKeepsOne(p, inst, s, j, ok);
      }
  }

  lemma {:induction false} OnlyOneStirsAlong(p: Platform, inst: Instance, s: System, j: nat, acts: seq<Act>, i: nat)
    requires OnlyOneStirs(inst, s, j) && DistinctNames(inst) && UndisturbedRun(p, inst, s, acts) && i <= |acts|
    ensures OnlyOneStirs(inst, Trace(p, s, acts)[i], j)
  {
    if i > 0 {
      OnlyOneStirsAlong(p, inst, s, j, acts, i - 1);
      StepKeepsOne(p, inst, Trace(p, s, acts)[i - 1], j, acts[i - 1]);
    }
  }

  lemma RefusedWriteDoesNotOverlap(p: Platform, inst: Instance, s: System, j: nat)
    requires InTurn(inst, s) && DistinctNames(inst)
    requires s.at == NodeRecheck(inst, j) && j < |inst.secondaries| && inst.secondaries[j].serviceName != ""
    ensures !CanOverlap(p, inst, Step(p, s, Op(false)))
  {
    var t := Step(p, s, Op(false));
    StepKeepsTurn(p, inst, s, Op(false));
    forall acts: seq<Act> | UndisturbedRun(p, inst, t, acts) ensures AtMostOneLeaves(inst, Run(p, t, acts).c) {
      InTurnAlong(p, inst, t, acts, |acts|);
    }
  }

  lemma LastStaleDoesNotOverlap(p: Platform, inst: Instance, s: System, j: nat)
    requires InTurn(inst, s) && DistinctNames(inst)
    requires s.at == NodeRecheck(inst, j) && j < |inst.secondaries|
    requires forall k | j < k < |inst.secondaries| :: !Stale(inst, s.c, k)
    ensures !CanOverlap(p, inst, Step(p, s, Op(false)))
  {
    var t := Step(p, s, Op(false));
    CallByGroup(p, s, false);
    assert t == System(s.c, NodeWrite(inst, j));
    forall i | 0 <= i < |inst.secondaries| && i != j ensures !Stale(inst, t.c, i) && !Leaving(inst, t.c, i) {
      assert !Stale(inst, s.c, i);
    }
    forall acts: seq<Act> | UndisturbedRun(p, inst, t, acts) ensures AtMostOneLeaves(inst, Run(p, t, acts).c) {
      OnlyOneStirsAlong(p, inst, t, j, acts, |acts|);
    }
  }

  /** A look at a just deleted secondary that fails is taken for "gone", because the wrong error
      variable is tested. The write that follows is refused, unless the spec leaves the service
      name empty. So two secondaries can be on their way out at once exactly if it does and any
      later secondary of the list waits for a change of its service name. */
  lemma FailedRecheck(p: Platform, inst: Instance, s: System, j: nat)
    requires InTurn(inst, s) && DistinctNames(inst) && inst.allowRecreate
    requires s.at == NodeRecheck(inst, j) && j < |inst.secondaries| && Leaving(inst, s.c, j)
    ensures CanOverlap(p, inst, Step(p, s, Op(false))) <==>
            && inst.secondaries[j].serviceName == ""
            && exists k | j < k < |inst.secondaries| :: Stale(inst, s.c, k)
  {
    CallByGroup(p, s, false);
    assert Step(p, s, Op(false)) == System(s.c, NodeWrite(inst, j));
    if inst.secondaries[j].serviceName != "" {
      RefusedWriteDoesNotOverlap(p, inst, s, j);
    } else if m :| j < m < |inst.secondaries| && Stale(inst, s.c, m) {
      var k := FirstStale(inst, s.c, j + 1, m);
      WriteOverlaps(p, inst, s.c, j, k);
    } else {
      LastStaleDoesNotOverlap(p, inst, s, j);
    }
  }

  // ---- An upgrade that waits for something nobody makes ----

  /** Whatever vanishes in between, the reads of the detector from the node `i` on find a change:
      up to the node that changed none is missing or on its way out. */
  predicate Firm(p: Platform, inst: Instance, c: Cluster, i: nat)
    requires i < |AllNodes(inst)|
    decreases |AllNodes(inst)| - i
  {
    var node := AllNodes(inst)[i];
    && node.name in c.sets && !c.sets[node.name].terminating
    && (NeedsRestart(p, node, c.sets[node.name]) || (i + 1 < |AllNodes(inst)| && Firm(p, inst, c, i + 1)))
  }

  /** MainShuttingDown is persisted and the main StatefulSet is gone: its handler reads it, fails,
      and the builder that would make it again is never reached. */
  predicate MainLost(p: Platform, inst: Instance, s: System) {
    && WellFormed(s.at)
    && s.c.teamcity == Some(inst) && !inst.deleting
    && s.c.checkpoint == Some(MainShuttingDown)
    && inst.main.name !in s.c.sets
    && (!s.at.Rest? ==> s.at.inst == inst)
    && match s.at
       case Rest(_) => true
       case ReadOngoing(_) => true
       case Detect(_, ongoing, i) => ongoing || Firm(p, inst, s.c, i)
       case ReadStage(_) => true
       case CertRevision(_) => true
       case Obsolete(_) => true
       case Prune(_, _) => true
       case GateGeneration(_) => true
       case GateRevision(_, newest) => !newest
       case GateOngoing(_, settled) => !settled
       case LastCheck(_) => true
       case _ => false
  }

  /** ReplicaStarting is persisted and there is no replica: its handler only looks. */
  predicate ReplicaLost(inst: Instance, s: System) {
    && WellFormed(s.at)
    && s.c.teamcity == Some(inst) && !inst.deleting
    && s.c.checkpoint == Some(ReplicaStarting)
    && ReplicaName(inst) !in s.c.sets
    && (!s.at.Rest? ==> s.at.inst == inst)
    && match s.at
       case Rest(_) => true
       case ReadOngoing(_) => true
       case Detect(_, ongoing, _) => ongoing
       case ReadStage(_) => true
       case ReplicaPoll(_) => true
       case _ => false
  }

  /** The user does not step in, and the reads that decide about an upgrade succeed. */
  predicate Undeterred(s: System, a: Act) {
    match a
    case World(e) => !e.Edit?
    case Op(ok) => s.at.ReadOngoing? || s.at.Detect? ==> ok
    case Crash => true
  }

  ghost predicate UndeterredRun(p: Platform, s: System, acts: seq<Act>)
    requires WellFormed(s.at)
  {
    forall i | 0 <= i < |acts| :: Undeterred(Trace(p, s, acts)[i], acts[i])
  }

  lemma {:induction false} EventsStayFirm(p: Platform, inst: Instance, c: Cluster, i: nat, e: Event)
    requires i < |AllNodes(inst)| && Firm(p, inst, c, i) && !e.Edit?
    ensures Firm(p, inst, Happen(c, e), i)
    decreases |AllNodes(inst)| - i
  {
    if !NeedsRestart(p, AllNodes(inst)[i], c.sets[AllNodes(inst)[i].name]) {
      EventsStayFirm(p, inst, c, i + 1, e);
    }
  }

  lemma MainStaysLost(p: Platform, inst: Instance, s: System, a: Act)
    requires MainLost(p, inst, s) && Undeterred(s, a)
    ensures MainLost(p, inst, Step(p, s, a))
  {
    if a.Op? {
      CallByGroup(p, s, a.ok);
    } else if a.World? && s.at.Detect? && !s.at.ongoing {
      EventsStayFirm(p, inst, s.c, s.at.i, a.event);
    }
  }

  lemma ReplicaStaysLost(p: Platform, inst: Instance, s: System, a: Act)
    requires ReplicaLost(inst, s) && Undeterred(s, a)
    ensures ReplicaLost(inst, Step(p, s, a))
  {
    if a.Op? {
      CallByGroup(p, s, a.ok);
    }
  }

  /** Neither wait ever ends: every later state still has the checkpoint and still lacks the object. */
  lemma {:induction false} LostForever(p: Platform, inst: Instance, s: System, acts: seq<Act>, i: nat)
    requires MainLost(p, inst, s) || ReplicaLost(inst, s)
    requires UndeterredRun(p, s, acts) && i <= |acts|
    ensures MainLost(p, inst, s) ==> MainLost(p, inst, Trace(p, s, acts)[i])
    ensures ReplicaLost(inst, s) ==> ReplicaLost(inst, Trace(p, s, acts)[i])
  {
    if i > 0 {
      LostForever(p, inst, s, acts, i - 1);
      var t := Trace(p, s, acts)[i - 1];
      if MainLost(p, inst, s) {
        MainStaysLost(p, inst, t, acts[i - 1]);
      } else {
        ReplicaStaysLost(p, inst, t, acts[i - 1]);
      }
    }
  }

  ghost predicate CanLoseMain(p: Platform, inst: Instance, s: System) {
    WellFormed(s.at) && exists acts: seq<Act> :: LosesMainBy(p, inst, s, acts)
  }

  ghost predicate LosesMainBy(p: Platform, inst: Instance, s: System, acts: seq<Act>)
    requires WellFormed(s.at)
  {
    UndeterredRun(p, s, acts) && MainLost(p, inst, Run(p, s, acts))
  }

  lemma LossAfter(p: Platform, inst: Instance, s: System, a: Act)
    requires WellFormed(s.at) && Undeterred(s, a) && CanLoseMain(p, inst, Step(p, s, a))
    ensures CanLoseMain(p, inst, s)
  {
    var acts: seq<Act> :| LosesMainBy(p, inst, Step(p, s, a), acts);
    RunOfOne(p, s, a, acts);
    assert LosesMainBy(p, inst, s, [a] + acts);
  }

  /** A main StatefulSet that the recreate path has no reason to delete. */
  predicate MainKept(inst: Instance, s: System) {
    && WellFormed(s.at)
    && (s.c.teamcity.None? || s.c.teamcity == Some(inst))
    && (!s.at.Rest? ==> s.at.inst == inst)
    && inst.main.name in s.c.sets
    && var x := s.c.sets[inst.main.name];
    && x.role == MainRole && !x.terminating && (inst.allowRecreate ==> !Drifted(inst.main, x))
    && !s.at.MainRemove? && !s.at.MainRecheck?
    && (s.at.Prune? ==> inst.main.name !in s.at.rest)
  }

  lemma NodeCallKeepsMain(p: Platform, inst: Instance, s: System, ok: bool)
    requires MainKept(inst, s) && DistinctNames(inst) && InNode(s.at)
    ensures MainKept(inst, CallNode(p, s, ok))
  {
  }

  lemma GateCallKeepsMain(p: Platform, inst: Instance, s: System, ok: bool)
    requires MainKept(inst, s) && InGate(s.at)
    ensures MainKept(inst, CallGate(p, s, ok))
  {
  }

  lemma HandlerCallKeepsMain(p: Platform, inst: Instance, s: System, ok: bool)
    requires MainKept(inst, s) && InHandler(s.at)
    ensures MainKept(inst, CallHandler(p, s, ok))
  {
    ReplicaNameIsNotMain(inst);
  }

  lemma StepKeepsMain(p: Platform, inst: Instance, s: System, a: Act)
    requires MainKept(inst, s) && DistinctNames(inst) && Undeterred(s, a)
    ensures MainKept(inst, Step(p, s, a))
  {
    if a.Op? {
      CallByGroup(p, s, a.ok);
      if InNode(s.at) {
        NodeCallKeepsMain(p, inst, s, a.ok);
      } else if InGate(s.at) {
        GateCallKeepsMain(p, inst, s, a.ok);
      } else if InHandler(s.at) {
        HandlerCallKeepsMain(p, inst, s, a.ok);
      }
    }
  }

  lemma {:induction false} MainKeptAlong(p: Platform, inst: Instance, s: System, acts: seq<Act>, i: nat)
    requires MainKept(inst, s) && DistinctNames(inst) && UndeterredRun(p, s, acts) && i <= |acts|
    ensures MainKept(inst, Trace(p, s, acts)[i])
  {
    if i > 0 {
      MainKeptAlong(p, inst, s, acts, i - 1);
      StepKeepsMain(p, inst, Trace(p, s, acts)[i - 1], acts[i - 1]);
    }
  }

  /** From the handler of ReplicaReady an upgrade can lose its main node for good exactly when the
      builder pass that follows would recreate it. No call has to fail for that. */
  lemma RecreateInsideUpgrade(p: Platform, inst: Instance, s: System)
    requires s.at == Persist(inst, MainShuttingDown) && s.c.checkpoint == Some(ReplicaReady)
    requires s.c.teamcity == Some(inst) && !inst.deleting && DistinctNames(inst)
    requires inst.main.name in s.c.sets
    requires s.c.sets[inst.main.name].role == MainRole && !s.c.sets[inst.main.name].terminating
    ensures CanLoseMain(p, inst, s) <==> inst.allowRecreate && Drifted(inst.main, s.c.sets[inst.main.name])
  {
    if inst.allowRecreate && Drifted(inst.main, s.c.sets[inst.main.name]) {
      RecreateLosesMain(p, inst, s);
    } else {
      forall acts: seq<Act> | UndeterredRun(p, s, acts) ensures !MainLost(p, inst, Run(p, s, acts)) {
        MainKeptAlong(p, inst, s, acts, |acts|);
      }
    }
  }

  lemma RecreateLosesMain(p: Platform, inst: Instance, s: System)
    requires s.at == Persist(inst, MainShuttingDown) && s.c.checkpoint == Some(ReplicaReady)
    requires s.c.teamcity == Some(inst) && !inst.deleting && inst.allowRecreate
    requires inst.main.name in s.c.sets && Drifted(inst.main, s.c.sets[inst.main.name])
    ensures CanLoseMain(p, inst, s)
  {
    AskForShutdown(p, inst, s);
    UpdateLosesMain(p, inst, System(s.c, PersistUpdate(inst, MainShuttingDown)));
    LossAfter(p, inst, s, Op(true));
  }

  lemma AskForShutdown(p: Platform, inst: Instance, s: System)
    requires s.at == Persist(inst, MainShuttingDown) && s.c.checkpoint == Some(ReplicaReady)
    ensures Step(p, s, Op(true)) == System(s.c, PersistUpdate(inst, MainShuttingDown))
  {
    CallByGroup(p, s, true);
    assert CanChange(ReplicaReady, MainShuttingDown);
  }

  lemma UpdateLosesMain(p: Platform, inst: Instance, s: System)
    requires s.at == PersistUpdate(inst, MainShuttingDown) && s.c.checkpoint.Some?
    requires s.c.teamcity == Some(inst) && !inst.deleting && inst.allowRecreate
    requires inst.main.name in s.c.sets && Drifted(inst.main, s.c.sets[inst.main.name])
    ensures CanLoseMain(p, inst, s)
  {
    var t := System(s.c.(checkpoint := Some(MainShuttingDown)), Support(inst));
    BuilderLosesMain(p, inst, t);
    CallByGroup(p, s, true);
    assert CallPersist(p, s, true) == t;
    LossAfter(p, inst, s, Op(true));
  }

  lemma BuilderLosesMain(p: Platform, inst: Instance, s: System)
    requires s.at == Support(inst) && s.c.checkpoint == Some(MainShuttingDown)
    requires s.c.teamcity == Some(inst) && !inst.deleting && inst.allowRecreate
    requires inst.main.name in s.c.sets && Drifted(inst.main, s.c.sets[inst.main.name])
    ensures CanLoseMain(p, inst, s)
  {
    var c := s.c.(support := inst.support);
    CallByGroup(p, s, true);
    CallByGroup(p, System(c, MainHook(inst)), true);
    RemovalLosesMain(p, inst, System(c, MainRemove(inst)));
    LossAfter(p, inst, System(c, MainHook(inst)), Op(true));
    LossAfter(p, inst, s, Op(true));
  }

  /** The removed StatefulSet is still there when the hook looks again, and gone a moment later. */
  lemma RemovalLosesMain(p: Platform, inst: Instance, s: System)
    requires s.at == MainRemove(inst) && s.c.checkpoint == Some(MainShuttingDown)
    requires s.c.teamcity == Some(inst) && !inst.deleting && inst.main.name in s.c.sets
    ensures CanLoseMain(p, inst, s)
  {
    var c := Remove(s.c, inst.main.name);
    var t, u := System(c, MainRecheck(inst)), System(c, Obsolete(inst));
    var gone := World(Vanish(inst.main.name));
    assert LosesMainBy(p, inst, Step(p, u, gone), []);
    LossAfter(p, inst, u, gone);
    CallByGroup(p, t, true);
    LossAfter(p, inst, t, Op(true));
    CallByGroup(p, s, true);
    LossAfter(p, inst, s, Op(true));
  }

  ghost predicate CanReturn(p: Platform, inst: Instance, s: System) {
    WellFormed(s.at) && exists acts: seq<Act> :: ReturnsBy(p, inst, s, acts)
  }

  ghost predicate ReturnsBy(p: Platform, inst: Instance, s: System, acts: seq<Act>)
    requires WellFormed(s.at)
  {
    UndeterredRun(p, s, acts) && inst.main.name in Run(p, s, acts).c.sets
  }

  lemma ReturnAfter(p: Platform, inst: Instance, s: System, a: Act)
    requires WellFormed(s.at) && Undeterred(s, a) && CanReturn(p, inst, Step(p, s, a))
    ensures CanReturn(p, inst, s)
  {
    var acts: seq<Act> :| ReturnsBy(p, inst, Step(p, s, a), acts);
    RunOfOne(p, s, a, acts);
    assert ReturnsBy(p, inst, s, [a] + acts);
  }

  lemma MainWriteReturns(p: Platform, inst: Instance, c: Cluster)
    requires inst.main.name !in c.sets
    ensures CanReturn(p, inst, System(c, MainWrite(inst)))
  {
    var s := System(c, MainWrite(inst));
    var t := Call(p, s, true);
    CallByGroup(p, s, true);
    assert inst.main.name in t.c.sets;
    assert Run(p, t, []) == t;
    assert ReturnsBy(p, inst, t, []);
    ReturnAfter(p, inst, s, Op(true));
  }

  lemma MainHookReturns(p: Platform, inst: Instance, c: Cluster)
    requires inst.main.name !in c.sets
    ensures CanReturn(p, inst, System(c, MainHook(inst)))
  {
    var s, t := System(c, MainHook(inst)), System(c, MainWrite(inst));
    assert Step(p, s, Op(true)) == t by {
      CallByGroup(p, s, true);
    }
    MainWriteReturns(p, inst, c);
    ReturnAfter(p, inst, s, Op(true));
  }

  /** The builder makes the main node again. */
  lemma BuilderReturns(p: Platform, inst: Instance, c: Cluster)
    requires inst.main.name !in c.sets
    ensures CanReturn(p, inst, System(c, Support(inst)))
  {
    var d := c.(support := inst.support);
    var s, t := System(c, Support(inst)), System(d, MainHook(inst));
    assert Step(p, s, Op(true)) == t by {
      CallByGroup(p, s, true);
    }
    MainHookReturns(p, inst, d);
    ReturnAfter(p, inst, s, Op(true));
  }

  /** A detector that does not know of the upgrade and comes upon a node that is missing, or that
      vanishes just then, sends the pass on to the builders. */
  lemma {:induction false} LooseDetectionReturns(p: Platform, inst: Instance, c: Cluster, i: nat)
    requires inst.main.name !in c.sets && i < |AllNodes(inst)| && !Firm(p, inst, c, i)
    ensures CanReturn(p, inst, System(c, Detect(inst, false, i)))
    decreases |AllNodes(inst)| - i, AllNodes(inst)[i].name in c.sets
  {
    var s, node := System(c, Detect(inst, false, i)), AllNodes(inst)[i];
    assert AllNodes(inst)[|inst.secondaries|] == inst.main;
    if node.name !in c.sets {
      BuilderReturns(p, inst, c);
      assert Call(p, s, true) == System(c, Support(inst));
      ReturnAfter(p, inst, s, Op(true));
    } else if c.sets[node.name].terminating {
      var d := Happen(c, Vanish(node.name));
      LooseDetectionReturns(p, inst, d, i);
      ReturnAfter(p, inst, s, World(Vanish(node.name)));
    } else {
      LooseDetectionReturns(p, inst, c, i + 1);
      assert Call(p, s, true) == System(c, Detect(inst, false, i + 1));
      ReturnAfter(p, inst, s, Op(true));
    }
  }

  lemma LostMainDoesNotReturn(p: Platform, inst: Instance, s: System)
    requires MainLost(p, inst, s)
    ensures !CanReturn(p, inst, s)
  {
    forall acts: seq<Act> | UndeterredRun(p, s, acts) ensures inst.main.name !in Run(p, s, acts).c.sets {
      LostForever(p, inst, s, acts, |acts|);
    }
  }

  /** Of all steps but an edit only two bring a lost main node within reach again: a failed read of
      the detector, whose error is swallowed, and a failed read of the checkpoint, unless the
      detector is sure to find a change without it. */
  lemma OnlyFailureFreesMain(p: Platform, inst: Instance, s: System, a: Act)
    requires MainLost(p, inst, s) && !(a.World? && a.event.Edit?)
    ensures CanReturn(p, inst, Step(p, s, a)) <==>
            a == Op(false) && (s.at.Detect? || (s.at.ReadOngoing? && !(inst.zeroDowntime && Firm(p, inst, s.c, 0))))
  {
    var t := Step(p, s, a);
    if a == Op(false) && (s.at.Detect? || (s.at.ReadOngoing? && !inst.zeroDowntime)) {
      BuilderReturns(p, inst, s.c);
    } else if a == Op(false) && s.at.ReadOngoing? && !Firm(p, inst, s.c, 0) {
      LooseDetectionReturns(p, inst, s.c, 0);
    } else {
      if a == Op(false) && s.at.ReadOngoing? {
        assert t == System(s.c, Detect(inst, false, 0));
      } else {
        MainStaysLost(p, inst, s, a);
      }
      LostMainDoesNotReturn(p, inst, t);
    }
  }

  // ---- A replica whose creation is forgotten ----

  /** Between the request for a replica and the sight of one that is ready. */
  predicate Starting(s: System) {
    s.c.checkpoint in {Some(ReplicaCreated), Some(ReplicaStarting)}
  }

  ghost predicate CanLoseReplica(p: Platform, inst: Instance, s: System) {
    WellFormed(s.at) && exists acts: seq<Act> :: LosesReplicaBy(p, inst, s, acts)
  }

  ghost predicate LosesReplicaBy(p: Platform, inst: Instance, s: System, acts: seq<Act>)
    requires WellFormed(s.at)
  {
    && UndeterredRun(p, s, acts)
    && (forall i | 0 <= i <= |acts| :: Starting(Trace(p, s, acts)[i]))
    && ReplicaLost(inst, Run(p, s, acts))
  }

  lemma ReplicaLossAfter(p: Platform, inst: Instance, s: System, a: Act)
    requires WellFormed(s.at) && Starting(s) && Undeterred(s, a) && CanLoseReplica(p, inst, Step(p, s, a))
    ensures CanLoseReplica(p, inst, s)
  {
    var acts: seq<Act> :| LosesReplicaBy(p, inst, Step(p, s, a), acts);
    RunOfOne(p, s, a, acts);
    assert LosesReplicaBy(p, inst, s, [a] + acts);
  }

  /** A replica that stays, and a worker that has no reason to remove it. */
  predicate ReplicaKept(inst: Instance, s: System) {
    && WellFormed(s.at)
    && s.c.teamcity == Some(inst) && !inst.deleting && Starting(s)
    && ReplicaName(inst) in s.c.sets && !s.c.sets[ReplicaName(inst)].terminating
    && (!s.at.Rest? ==> s.at.inst == inst)
    && match s.at
       case Rest(_) => true
       case ReadOngoing(_) => true
       case Detect(_, ongoing, _) => ongoing
       case ReadStage(_) => true
       case ReplicaReadMain(_) => true
       case ReplicaMake(_, _) => true
       case ReplicaPoll(_) => true
       case Persist(_, desired) => desired in {ReplicaStarting, ReplicaReady}
       case PersistUpdate(_, desired) => desired in {ReplicaStarting, ReplicaReady}
       case _ => false
  }

  lemma StepKeepsReplica(p: Platform, inst: Instance, s: System, a: Act)
    requires ReplicaKept(inst, s) && Undeterred(s, a) && Starting(Step(p, s, a))
    ensures ReplicaKept(inst, Step(p, s, a))
  {
    if a.Op? {
      CallByGroup(p, s, a.ok);
    }
  }

  lemma {:induction false} ReplicaKeptAlong(p: Platform, inst: Instance, s: System, acts: seq<Act>, i: nat)
    requires ReplicaKept(inst, s) && UndeterredRun(p, s, acts) && i <= |acts|
    requires forall k | 0 <= k <= |acts| :: Starting(Trace(p, s, acts)[k])
    ensures ReplicaKept(inst, Trace(p, s, acts)[i])
  {
    if i > 0 {
      ReplicaKeptAlong(p, inst, s, acts, i - 1);
      assert Starting(Trace(p, s, acts)[i]) && Undeterred(Trace(p, s, acts)[i - 1], acts[i - 1]);
      StepKeepsReplica(p, inst, Trace(p, s, acts)[i - 1], acts[i - 1]);
    }
  }

  lemma GoneReplicaIsLost(p: Platform, inst: Instance, s: System)
    requires ReplicaLost(inst, s)
    ensures CanLoseReplica(p, inst, s)
  {
    assert Trace(p, s, []) == [s];
    assert LosesReplicaBy(p, inst, s, []);
  }

  /** ReplicaStarting is persisted, and a replica that is leaving has gone. */
  lemma LeavingReplicaIsLost(p: Platform, inst: Instance, c: Cluster)
    requires c.teamcity == Some(inst) && !inst.deleting && c.checkpoint == Some(ReplicaStarting)
    requires ReplicaName(inst) in c.sets ==> c.sets[ReplicaName(inst)].terminating
    ensures CanLoseReplica(p, inst, System(c, Rest(Requeued)))
  {
    var d := Happen(c, Vanish(ReplicaName(inst)));
    assert ReplicaName(inst) !in d.sets;
    GoneReplicaIsLost(p, inst, System(d, Rest(Requeued)));
    ReplicaLossAfter(p, inst, System(c, Rest(Requeued)), World(Vanish(ReplicaName(inst))));
  }

  lemma UpdateLosesReplica(p: Platform, inst: Instance, c: Cluster)
    requires c.teamcity == Some(inst) && !inst.deleting && c.checkpoint == Some(ReplicaCreated)
    requires ReplicaName(inst) in c.sets ==> c.sets[ReplicaName(inst)].terminating
    ensures CanLoseReplica(p, inst, System(c, PersistUpdate(inst, ReplicaStarting)))
  {
    var s := System(c, PersistUpdate(inst, ReplicaStarting));
    var d := c.(checkpoint := Some(ReplicaStarting));
    LeavingReplicaIsLost(p, inst, d);
    assert Call(p, s, true) == System(d, Rest(Requeued));
    ReplicaLossAfter(p, inst, s, Op(true));
  }

  lemma StartLosesReplica(p: Platform, inst: Instance, c: Cluster)
    requires c.teamcity == Some(inst) && !inst.deleting && c.checkpoint == Some(ReplicaCreated)
    requires ReplicaName(inst) in c.sets ==> c.sets[ReplicaName(inst)].terminating
    ensures CanLoseReplica(p, inst, System(c, Persist(inst, ReplicaStarting)))
  {
    var s, t := System(c, Persist(inst, ReplicaStarting)), System(c, PersistUpdate(inst, ReplicaStarting));
    assert Step(p, s, Op(true)) == t by {
      CallByGroup(p, s, true);
    }
    UpdateLosesReplica(p, inst, c);
    ReplicaLossAfter(p, inst, s, Op(true));
  }

  /** The error of the replica's creation is overwritten by the next assignment. So the upgrade that
      asks for a replica can come to wait for one that nobody makes exactly if the creation fails
      and there is none, or if the replica of the last upgrade is still there and leaving: then a
      creation that succeeds does not help. */
  lemma FailedCreationIsForgotten(p: Platform, inst: Instance, s: System, ok: bool)
    requires s.at.ReplicaMake? && s.at.inst == inst && s.c.checkpoint == Some(ReplicaCreated)
    requires s.c.teamcity == Some(inst) && !inst.deleting
    ensures var name := ReplicaName(inst);
            CanLoseReplica(p, inst, Step(p, s, Op(ok))) <==>
            if name in s.c.sets then s.c.sets[name].terminating else !ok
  {
    CallByGroup(p, s, ok);
    var t := Step(p, s, Op(ok));
    assert t == System(t.c, Persist(inst, ReplicaStarting));
    if ReplicaName(inst) in t.c.sets && !t.c.sets[ReplicaName(inst)].terminating {
      assert ReplicaKept(inst, t);
      forall acts: seq<Act> |
          UndeterredRun(p, t, acts) && (forall k | 0 <= k <= |acts| :: Starting(Trace(p, t, acts)[k]))
        ensures !ReplicaLost(inst, Run(p, t, acts))
      {
        ReplicaKeptAlong(p, inst, t, acts, |acts|);
      }
    } else {
      StartLosesReplica(p, inst, t.c);
    }
  }

  // ---- The main node and a secondary at once ----

  predicate BothLeave(inst: Instance, c: Cluster) {
    && inst.main.name in c.sets && c.sets[inst.main.name].terminating
    && exists j | 0 <= j < |inst.secondaries| :: Leaving(inst, c, j)
  }

  /** Nothing fails and nobody edits. */
  predicate Smooth(a: Act) {
    match a
    case Op(ok) => ok
    case Crash => false
    case World(e) => !e.Edit? && !e.PodFailure?
  }

  ghost predicate CanBothLeave(p: Platform, inst: Instance, s: System) {
    WellFormed(s.at) && exists acts: seq<Act> :: BothLeaveBy(p, inst, s, acts)
  }

  ghost predicate BothLeaveBy(p: Platform, inst: Instance, s: System, acts: seq<Act>)
    requires WellFormed(s.at)
  {
    (forall i | 0 <= i < |acts| :: Smooth(acts[i])) && BothLeave(inst, Run(p, s, acts).c)
  }

  lemma BothLeaveAfter(p: Platform, inst: Instance, s: System, a: Act)
    requires WellFormed(s.at) && Smooth(a) && CanBothLeave(p, inst, Step(p, s, a))
    ensures CanBothLeave(p, inst, s)
  {
    var acts: seq<Act> :| BothLeaveBy(p, inst, Step(p, s, a), acts);
    RunOfOne(p, s, a, acts);
    assert BothLeaveBy(p, inst, s, [a] + acts);
  }

  lemma {:induction false} BothLeaveAfterCalls(p: Platform, inst: Instance, s: System, n: nat)
    requires WellFormed(s.at) && CanBothLeave(p, inst, Calls(p, s, n))
    ensures CanBothLeave(p, inst, s)
    decreases n
  {
    if 0 < n {
      BothLeaveAfterCalls(p, inst, Call(p, s, true), n - 1);
      BothLeaveAfter(p, inst, s, Op(true));
    }
  }

  lemma BothLeaveAfterBecoming(p: Platform, inst: Instance, s: System, t: System)
    requires Becomes(p, s, t) && CanBothLeave(p, inst, t)
    ensures CanBothLeave(p, inst, s)
  {
    var n: nat :| BecomesIn(p, s, t, n);
    BothLeaveAfterCalls(p, inst, s, n);
  }

  lemma StaleNodeLeavesToo(p: Platform, inst: Instance, c: Cluster, k: nat)
    requires k < |inst.secondaries| && inst.allowRecreate && DistinctNames(inst)
    requires Stale(inst, c, k) && inst.main.name in c.sets && c.sets[inst.main.name].terminating
    ensures CanBothLeave(p, inst, System(c, NodeHook(inst, k)))
  {
    var s, t := System(c, NodeHook(inst, k)), System(c, NodeRemove(inst, k));
    var u := Step(p, t, Op(true));
    RemovalMarks(p, inst, c, k);
    assert BothLeave(inst, u.c);
    assert BothLeaveBy(p, inst, u, []);
    BothLeaveAfter(p, inst, t, Op(true));
    HookRemoves(p, inst, c, k);
    BothLeaveAfter(p, inst, s, Op(true));
  }

  /** The secondaries before the first stale one are written, then that one is deleted. */
  lemma FirstStaleLeavesToo(p: Platform, inst: Instance, c: Cluster, k: nat)
    requires k < |inst.secondaries| && inst.allowRecreate && DistinctNames(inst)
    requires Stale(inst, c, k) && CleanBefore(inst, c, k)
    requires inst.main.name in c.sets && c.sets[inst.main.name].terminating
    ensures CanBothLeave(p, inst, System(c, NodeHook(inst, 0)))
  {
    var d := WalkToStale(p, inst, c, 0, k);
    StaleNodeLeavesToo(p, inst, d, k);
    BothLeaveAfterBecoming(p, inst, System(c, NodeHook(inst, 0)), System(d, NodeHook(inst, k)));
  }

  lemma GateLetsThrough(p: Platform, inst: Instance, c: Cluster, k: nat)
    requires inst.allowRecreate && DistinctNames(inst)
    requires k < |inst.secondaries| && Stale(inst, c, k) && CleanBefore(inst, c, k) && c.checkpoint.None?
    requires inst.main.name in c.sets && c.sets[inst.main.name].terminating
    requires IsNewestGeneration(c.sets[inst.main.name]) && IsUpdateFinished(c.sets[inst.main.name])
    ensures CanBothLeave(p, inst, System(c, GateGeneration(inst)))
  {
    var s, t := System(c, GateGeneration(inst)), System(c, GateRevision(inst, true));
    var u := System(c, GateOngoing(inst, true));
    FirstStaleLeavesToo(p, inst, c, k);
    CallByGroup(p, u, true);
    BothLeaveAfter(p, inst, u, Op(true));
    CallByGroup(p, t, true);
    BothLeaveAfter(p, inst, t, Op(true));
    CallByGroup(p, s, true);
    BothLeaveAfter(p, inst, s, Op(true));
  }

  /** Deleting obsolete secondaries first changes neither the main node, which is leaving already,
      nor the secondaries of the spec. */
  lemma PruningLetsThrough(p: Platform, inst: Instance, c: Cluster, k: nat)
    requires inst.allowRecreate && DistinctNames(inst)
    requires k < |inst.secondaries| && Stale(inst, c, k) && CleanBefore(inst, c, k) && c.checkpoint.None?
    requires inst.main.name in c.sets && c.sets[inst.main.name].terminating
    requires IsNewestGeneration(c.sets[inst.main.name]) && IsUpdateFinished(c.sets[inst.main.name])
    ensures CanBothLeave(p, inst, System(c, Obsolete(inst)))
  {
    var names := ObsoleteNames(c, inst);
    var s, d := System(c, Obsolete(inst)), Convergence.Pruned(c, names);
    assert AfterPrune(inst) == GateGeneration(inst);
    CallByGroup(p, s, true);
    if names == {} {
      GateLetsThrough(p, inst, c, k);
    } else {
      forall i | 0 <= i < |inst.secondaries| ensures Stale(inst, d, i) <==> Stale(inst, c, i) {
        assert inst.secondaries[i].name in SecondaryNames(inst);
      }
      GateLetsThrough(p, inst, d, k);
      Convergence.PruneCalls(p, inst, c, names);
      BothLeaveAfterBecoming(p, inst, System(c, Prune(inst, names)), System(d, GateGeneration(inst)));
    }
    BothLeaveAfter(p, inst, s, Op(true));
  }

  lemma StaleSecondaryLeavesToo(p: Platform, inst: Instance, s: System, k: nat)
    requires s.at == MainRecheck(inst) && inst.allowRecreate && DistinctNames(inst) && s.c.checkpoint.None?
    requires k < |inst.secondaries| && Stale(inst, s.c, k) && CleanBefore(inst, s.c, k)
    requires inst.main.name in s.c.sets
    requires var x := s.c.sets[inst.main.name];
             x.terminating && x.ready && x.pod == x.current == x.update == x.template && 0 < x.observed
    ensures CanBothLeave(p, inst, s)
  {
    var seen := World(Observe(inst.main.name));
    var t := Step(p, s, seen);
    assert inst.secondaries[k].name != inst.main.name;
    assert Stale(inst, t.c, k);
    forall i | 0 <= i < k ensures !Stale(inst, t.c, i) {
      assert !Stale(inst, s.c, i);
    }
    PruningLetsThrough(p, inst, t.c, k);
    CallByGroup(p, t, true);
    BothLeaveAfter(p, inst, t, Op(true));
    BothLeaveAfter(p, inst, s, seen);
  }

  lemma NoneStaleNoneLeaves(p: Platform, inst: Instance, s: System, acts: seq<Act>)
    requires InTurn(inst, s) && DistinctNames(inst) && CleanBefore(inst, s.c, |inst.secondaries|)
    requires forall i | 0 <= i < |acts| :: Smooth(acts[i])
    ensures !BothLeave(inst, Run(p, s, acts).c)
  {
    InTurnAlong(p, inst, s, acts, |acts|);
  }

  /** The hook asks for a requeue while the deleted main node is still there, but the pass drops
      it: once the controller has seen the deletion the gate is open. So the main node and a
      secondary can be on their way out together exactly if a secondary waits for a change of its
      service name too, however long the list is. */
  lemma DroppedRequeue(p: Platform, inst: Instance, s: System)
    requires s.at == MainRecheck(inst) && inst.allowRecreate && DistinctNames(inst)
    requires s.c.teamcity == Some(inst) && s.c.checkpoint.None?
    requires forall j | 0 <= j < |inst.secondaries| :: !Leaving(inst, s.c, j)
    requires inst.main.name in s.c.sets
    requires var x := s.c.sets[inst.main.name];
             x.terminating && x.ready && x.pod == x.current == x.update == x.template && 0 < x.observed
    ensures CanBothLeave(p, inst, s) <==> exists j | 0 <= j < |inst.secondaries| :: Stale(inst, s.c, j)
  {
    if j :| 0 <= j < |inst.secondaries| && Stale(inst, s.c, j) {
      var k := FirstStale(inst, s.c, 0, j);
      StaleSecondaryLeavesToo(p, inst, s, k);
    } else {
      forall acts: seq<Act> | forall i | 0 <= i < |acts| :: Smooth(acts[i])
        ensures !BothLeave(inst, Run(p, s, acts).c)
      {
        NoneStaleNoneLeaves(p, inst, s, acts);
      }
    }
  }
}
