/** What the admission webhook lets through, and what the controller then makes of it. */
module Webhook {
  import opened PodTree
  import opened PodTemplate
  import opened Stages
  import opened Cluster
  import opened Protocol
  import opened Recreate

  datatype Verdict = Rejected | Accepted(warning: bool)

  // ---- Service names ----

  /** The map that the webhook builds: of nodes with one name the last one counts. */
  function ServiceNames(nodes: seq<Node>): (m: map<string, string>)
    ensures forall k :: k in m <==> exists i | 0 <= i < |nodes| :: nodes[i].name == k
  {
    if nodes == [] then map[]
    else
      var last := |nodes| - 1;
      var m := ServiceNames(nodes[..last]);
      assert forall i | 0 <= i < last :: nodes[..last][i] == nodes[i];
      m[nodes[last].name := nodes[last].serviceName]
  }

  lemma {:induction false} ServiceNameOf(nodes: seq<Node>, i: nat)
    requires i < |nodes| && forall k | i < k < |nodes| :: nodes[k].name != nodes[i].name
    ensures nodes[i].name in ServiceNames(nodes) && ServiceNames(nodes)[nodes[i].name] == nodes[i].serviceName
    decreases |nodes|
  {
    var last := |nodes| - 1;
    if i < last {
      var before := nodes[..last];
      assert before[i] == nodes[i] && nodes[last].name != nodes[i].name;
      forall k | i < k < last ensures before[k].name != before[i].name {
        assert before[k] == nodes[k];
      }
      ServiceNameOf(before, i);
    }
  }

  predicate SecondaryChanged(names: map<string, string>, node: Node) {
    node.name in names && names[node.name] != node.serviceName
  }

  predicate ServiceNamesChanged(before: Instance, after: Instance) {
    || before.main.serviceName != after.main.serviceName
    || exists j | 0 <= j < |after.secondaries| ::
        SecondaryChanged(ServiceNames(before.secondaries), after.secondaries[j])
  }

  method ServiceNameChangedInSpec(before: Instance, after: Instance) returns (changed: bool)
    ensures changed <==> ServiceNamesChanged(before, after)
  {
    if before.main.serviceName != after.main.serviceName {
      return true;
    }
    var names: map<string, string> := map[];
    for i := 0 to |before.secondaries|
      invariant names == ServiceNames(before.secondaries[..i])
    {
      names := names[before.secondaries[i].name := before.secondaries[i].serviceName];
      assert before.secondaries[..i + 1][..i] == before.secondaries[..i];
    }
    assert before.secondaries[..|before.secondaries|] == before.secondaries;
    for j := 0 to |after.secondaries|
      invariant forall k | 0 <= k < j :: !SecondaryChanged(names, after.secondaries[k])
    {
      var node := after.secondaries[j];
      if node.name in names && names[node.name] != node.serviceName {
        assert SecondaryChanged(names, after.secondaries[j]);
        return true;
      }
    }
    return false;
  }

  /** `common` is the verdict on the fields that do not depend on the old object. */
  method ValidateUpdate(before: Instance, after: Instance, common: Verdict) returns (verdict: Verdict)
    ensures verdict.Rejected? <==> common.Rejected? || (ServiceNamesChanged(before, after) && !after.allowRecreate)
    ensures verdict == Accepted(false) <==> common == Accepted(false) && !ServiceNamesChanged(before, after)
  {
    if common.Rejected? {
      return Rejected;
    }
    verdict := common;
    var changed := ServiceNameChangedInSpec(before, after);
    if changed {
      if !after.allowRecreate {
        return Rejected;
      }
      verdict := Accepted(true);
    }
  }

  // ---- The controller's gate ----

  /** No StatefulSet of the spec would have to be recreated. */
  predicate Aligned(inst: Instance, c: Cluster) {
    && (inst.main.name in c.sets ==> !Drifted(inst.main, c.sets[inst.main.name]))
    && forall j | 0 <= j < |inst.secondaries| :: !Stale(inst, c, j)
  }

  /** What a finished pass leaves behind: exactly the StatefulSets of the spec, and at most a replica. */
  predicate Converged(inst: Instance, c: Cluster) {
    && Aligned(inst, c)
    && inst.main.name in c.sets
    && (forall j | 0 <= j < |inst.secondaries| :: Present(inst, c, j))
    && (forall n | n in c.sets :: n == inst.main.name || n == ReplicaName(inst) || n in SecondaryNames(inst))
  }

  lemma SecondaryGate(before: Instance, after: Instance, c: Cluster, j: nat)
    requires Converged(before, c) && DistinctNames(before) && DistinctNames(after)
    requires before.main.name == after.main.name && j < |after.secondaries|
    ensures SecondaryChanged(ServiceNames(before.secondaries), after.secondaries[j]) <==> Stale(after, c, j)
  {
    var node := after.secondaries[j];
    assert node.name != before.main.name && node.name != ReplicaName(before);
    if node.name in ServiceNames(before.secondaries) {
      var i :| 0 <= i < |before.secondaries| && before.secondaries[i].name == node.name;
      ServiceNameOf(before.secondaries, i);
      assert Present(before, c, i) && !Stale(before, c, i);
    }
  }

  /** Between converged passes the webhook asks for the annotation exactly when the controller
      would have to recreate something. */
  lemma WebhookIsTheControllersGate(before: Instance, after: Instance, c: Cluster)
    requires Converged(before, c) && DistinctNames(before) && DistinctNames(after)
    requires before.main.name == after.main.name
    ensures ServiceNamesChanged(before, after) <==> !Aligned(after, c)
  {
    forall j | 0 <= j < |after.secondaries|
      ensures SecondaryChanged(ServiceNames(before.secondaries), after.secondaries[j]) <==> Stale(after, c, j)
    {
      SecondaryGate(before, after, c, j);
    }
  }

  // ---- No pass ends in "recreate blocked" ----

  predicate Calm(inst: Instance, s: System) {
    && WellFormed(s.at)
    && (s.c.teamcity.None? || s.c.teamcity == Some(inst))
    && (!s.at.Rest? ==> s.at.inst == inst)
    && s.at != Rest(Blocked)
    && Aligned(inst, s.c)
  }

  lemma KeptStaysAligned(inst: Instance, c: Cluster, d: Cluster)
    requires Aligned(inst, c) && Kept(c, d)
    ensures Aligned(inst, d)
  {
    forall j | 0 <= j < |inst.secondaries| ensures !Stale(inst, d, j) {
      assert !Stale(inst, c, j);
    }
  }

  lemma MadeStaysAligned(inst: Instance, c: Cluster, d: Cluster, node: Node)
    requires Aligned(inst, c) && DistinctNames(inst) && Made(c, d, node.name)
    requires d.sets[node.name].serviceName == node.serviceName
    requires node == inst.main || node in inst.secondaries || node.name == ReplicaName(inst)
    ensures Aligned(inst, d)
  {
    ReplicaNameIsNotMain(inst);
    forall j | 0 <= j < |inst.secondaries| ensures !Stale(inst, d, j) {
      assert !Stale(inst, c, j);
    }
  }

  lemma WriteStaysCalm(p: Platform, inst: Instance, s: System, ok: bool)
    requires Calm(inst, s) && DistinctNames(inst) && (s.at.MainWrite? || s.at.NodeWrite?)
    ensures Calm(inst, Call(p, s, ok))
  {
    CallByGroup(p, s, ok);
    var node := if s.at.MainWrite? then inst.main else NodeAt(inst, s.at.j);
    var role := if s.at.MainWrite? then MainRole else SecondaryRole;
    if s.at.NodeWrite? {
      FoundByName(inst.secondaries, s.at.j);
      assert !Stale(inst, s.c, s.at.j);
    }
    var r := Apply(p, s.c, role, node);
    assert r.Some?;
    ApplyMakes(p, s.c, role, node);
    if Kept(s.c, r.value) {
      KeptStaysAligned(inst, s.c, r.value);
    } else {
      MadeStaysAligned(inst, s.c, r.value, node);
    }
  }

  lemma ReplicaStaysCalm(p: Platform, inst: Instance, s: System, ok: bool)
    requires Calm(inst, s) && DistinctNames(inst) && InHandler(s.at)
    ensures Calm(inst, CallHandler(p, s, ok))
  {
    var d := CallHandler(p, s, ok).c;
    HandlerCallDescended(p, s, ok);
    if Kept(s.c, d) {
      KeptStaysAligned(inst, s.c, d);
    } else {
      assert s.at.ReplicaMake?;
      MadeStaysAligned(inst, s.c, d, Node(ReplicaName(inst), inst.main.desired, ""));
    }
  }

  lemma MainStaysCalm(p: Platform, inst: Instance, s: System, ok: bool)
    requires Calm(inst, s) && InMain(s.at) && !s.at.MainWrite?
    ensures Calm(inst, CallMain(p, s, ok))
  {
    KeptStaysAligned(inst, s.c, CallMain(p, s, ok).c);
  }

  lemma NodeStaysCalm(p: Platform, inst: Instance, s: System, ok: bool)
    requires Calm(inst, s) && DistinctNames(inst) && InNode(s.at) && !s.at.NodeWrite?
    ensures Calm(inst, CallNode(p, s, ok))
  {
    if !s.at.LastCheck? {
      FoundByName(inst.secondaries, s.at.j);
      assert !Stale(inst, s.c, s.at.j);
    }
    KeptStaysAligned(inst, s.c, CallNode(p, s, ok).c);
  }

  lemma GateStaysCalm(p: Platform, inst: Instance, s: System, ok: bool)
    requires Calm(inst, s) && InGate(s.at)
    ensures Calm(inst, CallGate(p, s, ok))
  {
    GateCallDescended(p, s, ok);
    KeptStaysAligned(inst, s.c, CallGate(p, s, ok).c);
  }

  lemma OtherStaysCalm(p: Platform, inst: Instance, s: System, ok: bool)
    requires Calm(inst, s)
    requires s.at.Rest? || InDetection(s.at) || InPersist(s.at) || InFinalizer(s.at)
    ensures Calm(inst, Call(p, s, ok))
  {
    UpgradeCallDescended(p, s, ok);
    KeptStaysAligned(inst, s.c, Call(p, s, ok).c);
  }

  lemma StepStaysCalm(p: Platform, inst: Instance, s: System, a: Act)
    requires Calm(inst, s) && DistinctNames(inst) && !(a.World? && a.event.Edit?)
    ensures Calm(inst, Step(p, s, a))
  {
    match a
    case Crash =>
    case World(e) =>
      EventDescended(s.c, e);
      KeptStaysAligned(inst, s.c, Happen(s.c, e));
    case Op(ok) =>
      CallByGroup(p, s, ok);
      if s.at.MainWrite? || s.at.NodeWrite? {
        WriteStaysCalm(p, inst, s, ok);
      } else if InHandler(s.at) {
        ReplicaStaysCalm(p, inst, s, ok);
      } else if InMain(s.at) {
        MainStaysCalm(p, inst, s, ok);
      } else if InNode(s.at) {
        NodeStaysCalm(p, inst, s, ok);
      } else if InGate(s.at) {
        GateStaysCalm(p, inst, s, ok);
      } else {
        OtherStaysCalm(p, inst, s, ok);
      }
  }

  // ---- One run with accepted edits ----

  /** An edit that the webhook lets through, made when a pass has finished and left the cluster as
      its spec asks. */
  predicate EditIsAccepted(s: System, after: Instance) {
    && s.at == Rest(Finished) && s.c.teamcity.Some?
    && var before := s.c.teamcity.value;
    && Converged(before, s.c)
    && DistinctNames(after) && after.main.name == before.main.name
    && (ServiceNamesChanged(before, after) ==> after.allowRecreate)
  }

  ghost predicate AcceptedRun(p: Platform, s: System, acts: seq<Act>)
    requires WellFormed(s.at)
  {
    forall k | 0 <= k < |acts| && acts[k].World? && acts[k].event.Edit? ::
      EditIsAccepted(Trace(p, s, acts)[k], acts[k].event.inst)
  }

  /** The pass works from the stored spec, and is calm if that spec does not allow to recreate. */
  predicate Governed(s: System) {
    && WellFormed(s.at)
    && (s.c.teamcity.Some? ==>
          var inst := s.c.teamcity.value;
          && DistinctNames(inst)
          && (!s.at.Rest? ==> s.at.inst == inst)
          && (!inst.allowRecreate ==> Calm(inst, s)))
  }

  /** The spec goes only with the whole object, and a pass keeps its copy. */
  predicate CopyKept(s: System, t: System) {
    && (t.c.teamcity == s.c.teamcity || t.c.teamcity.None?)
    && (!t.at.Rest? ==> if s.at.Rest? then s.c.teamcity == Some(t.at.inst) else t.at.inst == s.at.inst)
  }

  lemma UpgradeKeepsCopy(p: Platform, s: System, ok: bool)
    requires WellFormed(s.at)
    requires s.at.Rest? || InDetection(s.at) || InHandler(s.at) || InPersist(s.at) || InFinalizer(s.at)
    ensures CopyKept(s, Call(p, s, ok))
  {
  }

  lemma BuilderKeepsCopy(p: Platform, s: System, ok: bool)
    requires WellFormed(s.at) && (InMain(s.at) || InGate(s.at) || InNode(s.at))
    ensures CopyKept(s, Call(p, s, ok))
  {
  }

  lemma AcceptedEditGoverns(s: System, next: Instance)
    requires Governed(s) && EditIsAccepted(s, next)
    ensures Governed(System(s.c.(teamcity := Some(next)), s.at))
  {
    var before, d := s.c.teamcity.value, s.c.(teamcity := Some(next));
    EditKeepsConverged(before, s.c, next);
    WebhookIsTheControllersGate(before, next, d);
  }

  lemma EditKeepsConverged(inst: Instance, c: Cluster, next: Instance)
    requires Converged(inst, c)
    ensures Converged(inst, c.(teamcity := Some(next)))
  {
    var d := c.(teamcity := Some(next));
    forall j | 0 <= j < |inst.secondaries| ensures Present(inst, d, j) && !Stale(inst, d, j) {
      assert Present(inst, c, j) && !Stale(inst, c, j);
    }
  }

  lemma StepStaysGoverned(p: Platform, s: System, a: Act)
    requires Governed(s) && (a.World? && a.event.Edit? ==> EditIsAccepted(s, a.event.inst))
    ensures Governed(Step(p, s, a))
  {
    if a.World? && a.event.Edit? {
      AcceptedEditGoverns(s, a.event.inst);
    } else {
      if s.c.teamcity.Some? && !s.c.teamcity.value.allowRecreate {
        StepStaysCalm(p, s.c.teamcity.value, s, a);
      }
      if a.Op? {
        if InMain(s.at) || InGate(s.at) || InNode(s.at) {
          BuilderKeepsCopy(p, s, a.ok);
        } else {
          UpgradeKeepsCopy(p, s, a.ok);
        }
      }
    }
  }

  lemma {:induction false} GovernedAlong(p: Platform, s: System, acts: seq<Act>, i: nat)
    requires Governed(s) && AcceptedRun(p, s, acts) && i <= |acts|
    ensures Governed(Trace(p, s, acts)[i])
  {
    if i > 0 {
      GovernedAlong(p, s, acts, i - 1);
      StepStaysGoverned(p, Trace(p, s, acts)[i - 1], acts[i - 1]);
    }
  }

  /** Through any number of accepted edits, each made when the passes on the one before had
      converged: while the spec carries no annotation, no pass ends in "recreate blocked", whatever
      fails in between. */
  lemma GatesAgree(p: Platform, s: System, acts: seq<Act>, i: nat)
    requires s.at == Rest(Finished) && s.c.teamcity.Some? && DistinctNames(s.c.teamcity.value)
    requires Converged(s.c.teamcity.value, s.c)
    requires AcceptedRun(p, s, acts) && i <= |acts|
    ensures var t := Trace(p, s, acts)[i];
            t.c.teamcity.Some? && !t.c.teamcity.value.allowRecreate ==> t.at != Rest(Blocked)
  {
    GovernedAlong(p, s, acts, i);
  }

  // ---- Responsibilities ----

  const MAIN_NODE := "MAIN_NODE"
  const BUILD_MESSAGES := "CAN_PROCESS_BUILD_MESSAGES"
  const CHECK_FOR_CHANGES := "CAN_CHECK_FOR_CHANGES"
  const BUILD_TRIGGERS := "CAN_PROCESS_BUILD_TRIGGERS"
  const USER_DATA := "CAN_PROCESS_USER_DATA_MODIFICATION_REQUESTS"

  function OfSecondaries(): seq<string> {
    [BUILD_MESSAGES, CHECK_FOR_CHANGES, BUILD_TRIGGERS, USER_DATA]
  }

  function OfMain(): seq<string> {
    [MAIN_NODE] + OfSecondaries()
  }

  predicate Subset(xs: seq<string>, ys: seq<string>) {
    forall x | x in xs :: x in ys
  }

  function AllAssigned(main: seq<string>, secondaries: seq<seq<string>>): seq<string> {
    if secondaries == [] then main
    else AllAssigned(main, secondaries[..|secondaries| - 1]) + secondaries[|secondaries| - 1]
  }

  method AllElementsInOtherSlice(slice1: seq<string>, slice2: seq<string>) returns (all: bool)
    ensures all <==> Subset(slice1, slice2)
  {
    var m: set<string> := {};
    for i := 0 to |slice2|
      invariant forall x :: x in m <==> x in slice2[..i]
    {
      m := m + {slice2[i]};
    }
    assert slice2[..|slice2|] == slice2;
    for i := 0 to |slice1|
      invariant forall k | 0 <= k < i :: slice1[k] in slice2
    {
      if slice1[i] !in m {
        return false;
      }
    }
    return true;
  }

  predicate ValidAssignment(main: seq<string>, secondaries: seq<seq<string>>) {
    && Subset(main, OfMain())
    && Subset([MAIN_NODE, USER_DATA], main)
    && forall j | 0 <= j < |secondaries| :: Subset(secondaries[j], OfSecondaries())
  }

  method ValidateResponsibilitiesOfAllNodes(main: seq<string>, secondaries: seq<seq<string>>) returns (verdict: Verdict)
    ensures verdict.Rejected? <==> AllAssigned(main, secondaries) != [] && !ValidAssignment(main, secondaries)
    ensures verdict == Accepted(true) <==>
              && AllAssigned(main, secondaries) != [] && ValidAssignment(main, secondaries)
              && !Subset(OfMain(), AllAssigned(main, secondaries))
  {
    var held := main;
    for j := 0 to |secondaries|
      invariant held == AllAssigned(main, secondaries[..j])
    {
      held := held + secondaries[j];
      assert secondaries[..j + 1][..j] == secondaries[..j];
    }
    assert secondaries[..|secondaries|] == secondaries;
    if held == [] {
      return Accepted(false);
    }
    var allowed := AllElementsInOtherSlice(main, OfMain());
    var enough := AllElementsInOtherSlice([MAIN_NODE, USER_DATA], main);
    if |main| < 1 || !allowed || !enough {
      assert main == [] ==> [MAIN_NODE, USER_DATA][0] !in main;
      return Rejected;
    }
    for j := 0 to |secondaries|
      invariant forall k | 0 <= k < j :: Subset(secondaries[k], OfSecondaries())
    {
      var valid := AllElementsInOtherSlice(secondaries[j], OfSecondaries());
      if !valid {
        return Rejected;
      }
    }
    var covered := AllElementsInOtherSlice(OfMain(), held);
    return Accepted(!covered);
  }

  /** An assignment is valid exactly if the main node has its two duties and nothing unknown, and no
      secondary has anything unknown or the main node's first duty. */
  lemma ValidInWords(main: seq<string>, secondaries: seq<seq<string>>)
    ensures ValidAssignment(main, secondaries) <==>
            && "MAIN_NODE" in main && "CAN_PROCESS_USER_DATA_MODIFICATION_REQUESTS" in main
            && (forall x | x in main :: x == "MAIN_NODE" || MayShare(x))
            && (forall j, x | 0 <= j < |secondaries| && x in secondaries[j] :: MayShare(x))
  {
    forall x ensures x in OfSecondaries() <==> MayShare(x) {
      InFour(OfSecondaries()[0], OfSecondaries()[1], OfSecondaries()[2], OfSecondaries()[3], x);
    }
    forall x ensures x in OfMain() <==> x == "MAIN_NODE" || MayShare(x) {
      assert x in OfMain() <==> x == MAIN_NODE || x in OfSecondaries();
    }
    assert forall x :: x in [MAIN_NODE, USER_DATA] <==> x == MAIN_NODE || x == USER_DATA by {
      assert [MAIN_NODE, USER_DATA][0] == MAIN_NODE && [MAIN_NODE, USER_DATA][1] == USER_DATA;
    }
  }

  lemma InFour(a: string, b: string, c: string, d: string, x: string)
    ensures x in [a, b, c, d] <==> x == a || x == b || x == c || x == d
  {
    assert [a, b, c, d][0] == a && [a, b, c, d][1] == b && [a, b, c, d][2] == c && [a, b, c, d][3] == d;
  }

  /** What any node may do. */
  predicate MayShare(x: string) {
    || x == "CAN_PROCESS_BUILD_MESSAGES"
    || x == "CAN_CHECK_FOR_CHANGES"
    || x == "CAN_PROCESS_BUILD_TRIGGERS"
    || x == "CAN_PROCESS_USER_DATA_MODIFICATION_REQUESTS"
  }

  /** An accepted assignment, unless it is empty, puts the main responsibility on the main node
      and on no other, whether or not there is a warning. */
  lemma MainNodeIsUnique(main: seq<string>, secondaries: seq<seq<string>>)
    requires ValidAssignment(main, secondaries)
    ensures MAIN_NODE in main && forall j | 0 <= j < |secondaries| :: MAIN_NODE !in secondaries[j]
  {
    assert [MAIN_NODE, USER_DATA][0] in main;
    assert MAIN_NODE[0] == 'M' && BUILD_MESSAGES[0] == 'C' && CHECK_FOR_CHANGES[0] == 'C';
    assert BUILD_TRIGGERS[0] == 'C' && USER_DATA[0] == 'C';
  }

  /** There is no warning exactly if every responsibility has a node. */
  lemma NoWarningMeansCovered(main: seq<string>, secondaries: seq<seq<string>>)
    ensures Subset(OfMain(), AllAssigned(main, secondaries)) <==>
            forall x | x in OfMain() :: x in main || exists j | 0 <= j < |secondaries| :: x in secondaries[j]
  {
    forall x ensures x in AllAssigned(main, secondaries) <==>
                     x in main || exists j | 0 <= j < |secondaries| :: x in secondaries[j]
    {
      AssignedSomewhere(main, secondaries, x);
    }
  }

  lemma {:induction false} AssignedSomewhere(main: seq<string>, secondaries: seq<seq<string>>, x: string)
    ensures x in AllAssigned(main, secondaries) <==>
            x in main || exists j | 0 <= j < |secondaries| :: x in secondaries[j]
    decreases |secondaries|
  {
    if secondaries != [] {
      var last := |secondaries| - 1;
      AssignedSomewhere(main, secondaries[..last], x);
      assert forall j | 0 <= j < last :: secondaries[..last][j] == secondaries[j];
      if x in secondaries[last] {
      }
    }
  }
}
