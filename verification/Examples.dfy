/** Small concrete systems that meet the hypotheses of the upgrade theorems, and the shortest edits
    that show both sides of one of them. */
module Examples {
  import opened PodTree
  import opened PodTemplate
  import opened Stages
  import opened Cluster
  import opened Protocol
  import Course
  import SingleNode
  import MultiNode
  import Passes
  import Hazards
  import FleetHazards

  /** A pod is told apart by its account name, and the variables of the replica by `rest`. */
  function Pod(account: string): Template {
    Template(Nil, Nil, Nil, Nil, Nil, Nil, Nil, Nil, account, "", Nil)
  }

  /** The spec is written as it is, every difference is detected, and the replica copies the main
      node's template with variables of the instance. */
  function Plainest(): Platform {
    Platform((d: Template, t: Template) => d,
             (d: Template, t: Template) => d != t,
             Pod(""),
             (inst: Instance, t: Template) => t.(rest := inst.support))
  }

  function Asking(account: string, secondaries: seq<Node>, variables: Tree): Instance {
    Instance(true, false, false, Node("main", Pod(account), "main"), secondaries, variables)
  }

  function RolledOut(role: Role, uid: nat, serviceName: string, t: Template): StatefulSet {
    StatefulSet(role, uid, serviceName, t, 1, 1, t, t, t, true, false)
  }

  const MAIN := SingleNode.Identity("main", "main")

  const REPLICA := "main-update-replica"

  /** An edit has just arrived at a standalone main node. */
  function Alone(): System {
    var main := RolledOut(MainRole, 0, "main", Pod("old"));
    System(Cluster(Some(Asking("new", [], Nil)), None, Nil, map["main" := main], 1), Rest(Finished))
  }

  lemma AloneMeetsHypotheses()
    ensures WriteSettles(Plainest()) && SingleNode.AtRest(Plainest(), MAIN, Alone())
    ensures Course.OnCourse(Plainest(), Asking("new", [], Nil), Alone())
  {
  }

  /** The upgrade has made its replica, and crashed before it could persist ReplicaStarting. */
  function Interrupted(): System {
    var main, replica := RolledOut(MainRole, 0, "main", Pod("old")), RolledOut(ReplicaRole, 1, "", Pod("old"));
    var sets := map["main" := main, REPLICA := replica];
    System(Cluster(Some(Asking("new", [], Nil)), Some(ReplicaCreated), Nil, sets, 2), Rest(Crashed))
  }

  lemma InterruptedMeetsHypotheses()
    ensures SingleNode.Inv(Plainest(), MAIN, Interrupted()) && Passes.Plain(MAIN, Interrupted().c)
    ensures REPLICA == MAIN.Replica()
  {
    var c := Interrupted().c;
    assert REPLICA == MAIN.Replica() && |REPLICA| > |"main"|;
    assert c.sets["main"] == RolledOut(MainRole, 0, "main", Pod("old"));
    assert c.sets[REPLICA] == RolledOut(ReplicaRole, 1, "", Pod("old"));
    assert SingleNode.Reached(MAIN, c);
    assert SingleNode.ReplicaUp(MAIN, c);
    assert SingleNode.Safe(Plainest(), MAIN, c, c.checkpoint, c.teamcity.value, Pod("old")) by {
      assert Pod("old").serviceAccount != Pod("new").serviceAccount;
    }
  }

  /** Asking for yet another account is harmless then; giving the replica other variables as well
      leads to an outage. */
  lemma VariablesChangedTooLate()
    ensures !Hazards.CanGoDown(Plainest(), MAIN, Step(Plainest(), Interrupted(), World(Edit(Asking("newer", [], Nil)))))
    ensures Hazards.CanGoDown(Plainest(), MAIN,
                              Step(Plainest(), Interrupted(), World(Edit(Asking("newer", [], Ref(Nil))))))
  {
    var p, s := Plainest(), Interrupted();
    AloneMeetsHypotheses();
    InterruptedMeetsHypotheses();
    assert Pod("old").serviceAccount != Pod("newer").serviceAccount;
    Hazards.EditAtReplicaCreated(p, MAIN, s, Asking("newer", [], Nil));
    Hazards.EditAtReplicaCreated(p, MAIN, s, Asking("newer", [], Ref(Nil)));
  }

  const FLEET := MultiNode.Fleet("main", {"node"}, map["main" := "main", "node" := "node"])

  /** An edit has just arrived at a main node and one secondary. */
  function Together(): System {
    var main, node := RolledOut(MainRole, 0, "main", Pod("old")), RolledOut(SecondaryRole, 1, "node", Pod("old"));
    var inst := Asking("new", [Node("node", Pod("new"), "node")], Nil);
    System(Cluster(Some(inst), None, Nil, map["main" := main, "node" := node], 2), Rest(Finished))
  }

  lemma FleetNames(inst: Instance)
    requires inst.main == Node("main", inst.main.desired, "main") && |inst.secondaries| == 1
    requires inst.secondaries[0] == Node("node", inst.secondaries[0].desired, "node")
    ensures FLEET.Valid() && MultiNode.Member(FLEET, inst) && DistinctNames(inst)
    ensures MultiNode.Wanted(FLEET, inst, "main") == inst.main.desired
    ensures MultiNode.Wanted(FLEET, inst, "node") == inst.secondaries[0].desired
  {
    assert "main" != "node" && "main"[0] == 'm' && "node"[0] == 'n';
    assert "node" in SecondaryNames(inst);
    assert SecondaryNames(inst) == {"node"};
    assert |ReplicaOf("main")| > |"node"|;
  }

  lemma TogetherMeetsHypotheses()
    ensures MultiNode.AtRest(Plainest(), FLEET, Together())
    ensures Course.OnCourse(Plainest(), Together().c.teamcity.value, Together())
  {
    FleetNames(Together().c.teamcity.value);
  }

  /** The builders have just written the secondary; with `seen` its pod has been replaced already. */
  function JustWritten(seen: bool): System {
    var main := RolledOut(MainRole, 0, "main", Pod("new"));
    var due := RolledOut(SecondaryRole, 1, "node", Pod("old")).(template := Pod("new"), generation := 2);
    var node := if seen then RolledOut(SecondaryRole, 1, "node", Pod("new")) else due;
    var inst := Asking("new", [Node("node", Pod("new"), "node")], Nil);
    System(Cluster(Some(inst), None, Nil, map["main" := main, "node" := node], 2), Rest(Finished))
  }

  lemma JustWrittenMeetsHypotheses(seen: bool)
    ensures MultiNode.Inv(Plainest(), FLEET, JustWritten(seen))
  {
    var s := JustWritten(seen);
    FleetNames(s.c.teamcity.value);
    assert "main" != "node" && "main"[0] == 'm' && "node"[0] == 'n';
    assert s.c.sets["main"] == RolledOut(MainRole, 0, "main", Pod("new"));
    assert Pod("old").serviceAccount != Pod("new").serviceAccount;
  }

  /** Only the main node is edited. */
  function Newer(): Instance {
    Asking("newer", [Node("node", Pod("new"), "node")], Nil)
  }

  lemma NewerComesTooEarly()
    ensures MultiNode.Member(FLEET, Newer()) && FLEET.Valid()
    ensures FleetHazards.TooEarly(Plainest(), FLEET, JustWritten(false).c, Newer())
    ensures !FleetHazards.TooEarly(Plainest(), FLEET, JustWritten(true).c, Newer())
  {
    FleetNames(Newer());
    assert Pod("newer").serviceAccount != Pod("new").serviceAccount && Pod("old").serviceAccount == "old";
    assert "node" in FLEET.secondaries && !Restarting(JustWritten(true).c.sets["node"]);
  }

  /** Asking the main node for yet another account then, while the pod of the secondary still answers
      and is due to restart, can leave nobody to answer; a moment later it cannot. */
  lemma EditedBeforeRestart()
    ensures var edit := World(Edit(Newer()));
            && FleetHazards.CanGoDark(Plainest(), FLEET, Step(Plainest(), JustWritten(false), edit), true)
            && !FleetHazards.CanGoDark(Plainest(), FLEET, Step(Plainest(), JustWritten(true), edit), false)
  {
    AloneMeetsHypotheses();
    NewerComesTooEarly();
    JustWrittenMeetsHypotheses(false);
    FleetHazards.EditBetweenPasses(Plainest(), FLEET, JustWritten(false), Newer());
    JustWrittenMeetsHypotheses(true);
    FleetHazards.EditBetweenPasses(Plainest(), FLEET, JustWritten(true), Newer());
  }
}
