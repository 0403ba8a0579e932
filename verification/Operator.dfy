/** The upgrade theorems for the templates that the operator really writes. */
module Operator {
  import opened PodTree
  import opened PodTemplate
  import opened Stages
  import opened Cluster
  import opened Protocol
  import opened StageProtocol
  import opened Detection
  import opened Passes
  import Course
  import Progress
  import Restless
  import SingleNode
  import MultiNode
  import Hazards
  import Configuration

  /** How the replica is made of the instance and the stored template of the main node. */
  type Copying = (Instance, Template) -> Template

  /** `server` completes what is written, `blank` is the empty StatefulSet with its selector and
      labels. */
  function Real(server: Server, blank: Template, replica: Copying): Platform {
    Platform((d: Template, t: Template) => Write(server, d, t),
             (d: Template, t: Template) => Detects(d, t),
             blank,
             replica)
  }

  lemma RealWritesSettle(server: Server, blank: Template, replica: Copying)
    requires Lawful(server)
    ensures WriteSettles(Real(server, blank, replica))
  {
    var p := Real(server, blank, replica);
    forall d, t ensures p.write(d, p.write(d, t)) == p.write(d, t) {
      WriteTwice(server, d, t);
    }
  }

  /** What the loop over the nodes asks about a node is whether the spec of its StatefulSet, configured
      from nothing, differs from the stored one in a template or in the service name. */
  lemma DetectorComparesSpecs(server: Server, blank: Template, replica: Copying, settings: Configuration.Settings,
                              n: Configuration.NodeSettings, x: StatefulSet)
    ensures var desired := Configuration.Desired(settings, n);
            NeedsRestart(Real(server, blank, replica), Node(n.name, desired, n.serviceName), x) <==>
            !Derives(Configuration.SpecWithService(n.serviceName, Asked(desired, x.template)),
                     Configuration.SpecWithService(x.serviceName, Spec(x.template)))
  {
    var desired := Configuration.Desired(settings, n);
    Configuration.ServiceNameCounts(n.serviceName, Asked(desired, x.template), x.serviceName, Spec(x.template));
  }

  /** An edit is seen when it leaves no location for the detector to miss. */
  lemma NothingMissedIsSeen(server: Server, blank: Template, replica: Copying, inst: Instance, t: Template)
    requires Stored(server, t)
    requires forall path :: !Missed(inst.main.desired, t, path)
    ensures SingleNode.Sees(Real(server, blank, replica), inst, t)
  {
    if !Detects(inst.main.desired, t) && Write(server, inst.main.desired, t) != t {
      StoredGap(server, inst.main.desired, t);
    }
  }

  /** Any admissible run of any number of upgrades: the main pod or a replica that is not being
      deleted answers in every state. */
  lemma StandaloneAlwaysServes(server: Server, blank: Template, replica: Copying, id: SingleNode.Identity,
                               s: System, acts: seq<Act>)
    requires Lawful(server)
    requires SingleNode.AtRest(Real(server, blank, replica), id, s)
    requires SingleNode.AdmissibleRun(Real(server, blank, replica), id, s, acts)
    ensures forall i | 0 <= i <= |acts| :: SingleNode.Serving(id, Trace(Real(server, blank, replica), s, acts)[i].c)
  {
    RealWritesSettle(server, blank, replica);
    SingleNode.AlwaysServing(Real(server, blank, replica), id, s, acts);
  }

  /** Any admissible run of a fleet: the main node answers, or every secondary does. */
  lemma FleetAlwaysServes(server: Server, blank: Template, replica: Copying, f: MultiNode.Fleet,
                          s: System, acts: seq<Act>, i: nat)
    requires Lawful(server)
    requires MultiNode.AtRest(Real(server, blank, replica), f, s)
    requires MultiNode.AdmissibleRun(Real(server, blank, replica), f, s, acts) && i <= |acts|
    ensures var c := Trace(Real(server, blank, replica), s, acts)[i].c;
            || (f.main in c.sets && c.sets[f.main].ready)
            || (forall n | n in f.secondaries :: n in c.sets && c.sets[n].ready)
  {
    RealWritesSettle(server, blank, replica);
    MultiNode.AlwaysServing(Real(server, blank, replica), f, s, acts);
  }

  /** Some spec always asks for a template that no status knows yet. */
  lemma SpecsCanRenew(server: Server, blank: Template, replica: Copying, id: SingleNode.Identity, x: StatefulSet)
    ensures Hazards.CanRenew(Real(server, blank, replica), id, x)
  {
    var account := x.current.serviceAccount + x.update.serviceAccount + x.template.serviceAccount + "x";
    var node := Node(id.main, x.template.(serviceAccount := account), id.serviceName);
    var m := Instance(true, false, false, node, [], Nil);
    assert |account| > |x.current.serviceAccount|;
    assert |account| > |x.update.serviceAccount|;
    assert |account| > |x.template.serviceAccount|;
    assert SingleNode.Target(Real(server, blank, replica), m, x.template).serviceAccount == account;
    assert Hazards.Renews(Real(server, blank, replica), id, x, m);
  }

  /** So for the templates that the operator writes, the guard of `SingleNode.Admissible` is exact for
      every edit of a standalone instance, at every point of every pass. */
  lemma StandaloneEditHazard(server: Server, blank: Template, replica: Copying, id: SingleNode.Identity,
                             s: System, n: Instance)
    requires Lawful(server) && SingleNode.Standalone(id, n)
    requires SingleNode.Inv(Real(server, blank, replica), id, s) && Passes.Plain(id, s.c)
    ensures var p := Real(server, blank, replica);
            Hazards.CanGoDown(p, id, Step(p, s, World(Edit(n)))) <==> !SingleNode.Bears(p, id, s, n)
  {
    RealWritesSettle(server, blank, replica);
    SpecsCanRenew(server, blank, replica, id, s.c.sets[id.main]);
    Hazards.EditHazard(Real(server, blank, replica), id, s, n);
  }

  // ---- When upgrades end ----

  /** No number that the spec of a node states is replaced when it is stored. */
  ghost predicate NumbersSurvive(server: Server, node: Node, t: Template) {
    var s := Write(server, node.desired, t);
    NumbersKept(Asked(node.desired, s), Spec(s))
  }

  ghost predicate AllNumbersSurvive(server: Server, inst: Instance, c: Cluster) {
    forall i | 0 <= i < |AllNodes(inst)| ::
      var node := AllNodes(inst)[i];
      node.name in c.sets && NumbersSurvive(server, node, c.sets[node.name].template)
  }

  predicate CanonicalSpec(inst: Instance) {
    forall node | node in AllNodes(inst) :: node.desired.deprecatedAccount == ""
  }

  predicate Rolled(role: Role, node: Node, c: Cluster) {
    && node.name in c.sets
    && var x := c.sets[node.name];
    && x.role == role && x.serviceName == node.serviceName
    && Settled(x) && 0 < x.observed <= x.generation
  }

  /** A finished cluster of any number of nodes, with a spec that keeps them but may ask for other
      templates. */
  predicate FreshlyEdited(inst: Instance, s: System) {
    && s.at.Rest? && s.c.checkpoint.None?
    && s.c.teamcity == Some(inst) && !inst.deleting && DistinctNames(inst) && CanonicalSpec(inst)
    && Rolled(MainRole, inst.main, s.c)
    && (forall i | 0 <= i < |inst.secondaries| :: Rolled(SecondaryRole, inst.secondaries[i], s.c))
    && (forall n | n in s.c.sets && s.c.sets[n].role == SecondaryRole :: n in SecondaryNames(inst))
    && ReplicaName(inst) !in s.c.sets
  }

  lemma RolledFits(server: Server, blank: Template, replica: Copying, role: Role, node: Node, c: Cluster)
    requires Lawful(server) && Rolled(role, node, c) && node.desired.deprecatedAccount == ""
    requires NumbersSurvive(server, node, c.sets[node.name].template)
    ensures Course.NodeFits(Real(server, blank, replica), role, node, c)
  {
    QuietAfterWrite(server, node.desired, c.sets[node.name].template);
  }

  lemma EditedIsOnCourse(server: Server, blank: Template, replica: Copying, inst: Instance, s: System)
    requires Lawful(server) && FreshlyEdited(inst, s) && AllNumbersSurvive(server, inst, s.c)
    ensures Course.OnCourse(Real(server, blank, replica), inst, s)
  {
    var p := Real(server, blank, replica);
    assert AllNodes(inst)[|inst.secondaries|] == inst.main;
    RolledFits(server, blank, replica, MainRole, inst.main, s.c);
    forall i | 0 <= i < |inst.secondaries| ensures Course.NodeFits(p, SecondaryRole, inst.secondaries[i], s.c) {
      assert AllNodes(inst)[i] == inst.secondaries[i];
      RolledFits(server, blank, replica, SecondaryRole, inst.secondaries[i], s.c);
    }
  }

  /** After any edit of a finished cluster whose numbers survive, with one node or many, fair rounds
      in a number that grows with the nodes alone bring the upgrade to its end, and no fair run
      starts another one. */
  lemma UpgradeEnds(server: Server, blank: Template, replica: Copying, inst: Instance, s: System,
                    rounds: seq<seq<Act>>, later: seq<Act>)
    requires Lawful(server) && FreshlyEdited(inst, s) && AllNumbersSurvive(server, inst, s.c)
    requires Progress.Rounds(Real(server, blank, replica), inst, s, rounds)
    requires 143 * Progress.Scale(inst) <= |rounds| && Course.AllFair(later)
    ensures var p := Real(server, blank, replica);
            var t := Run(p, s, Progress.Flatten(rounds));
            Progress.Over(p, inst, t.c) && Progress.Over(p, inst, Run(p, t, later).c)
  {
    var p := Real(server, blank, replica);
    RealWritesSettle(server, blank, replica);
    EditedIsOnCourse(server, blank, replica, inst, s);
    Progress.EnoughRounds(p, inst, s);
    Progress.UpgradeEnds(p, inst, s, rounds);
    Progress.StaysOver(p, inst, Run(p, s, Progress.Flatten(rounds)), later);
  }

  lemma {:induction false} FirstChange(p: Platform, inst: Instance, c: Cluster, i: nat)
    requires i < |AllNodes(inst)| && Changed(p, inst, c, i)
    requires forall k | 0 <= k < |AllNodes(inst)| :: AllNodes(inst)[k].name in c.sets
    ensures RestartNeeded(p, inst, c)
    decreases i
  {
    if k: nat :| k < i && Changed(p, inst, c, k) {
      FirstChange(p, inst, c, k);
    } else {
      forall k: nat | k < i ensures Unchanged(p, inst, c, k) {
        assert !Changed(p, inst, c, k) && AllNodes(inst)[k].name in c.sets;
      }
    }
  }

  /** At nodes that are what the spec asks for, the detector fires exactly if a number was lost. */
  lemma FiresIffNumberLost(server: Server, blank: Template, replica: Copying, inst: Instance, c: Cluster)
    requires Lawful(server) && CanonicalSpec(inst)
    requires forall i | 0 <= i < |AllNodes(inst)| ::
               var node := AllNodes(inst)[i];
               && node.name in c.sets && c.sets[node.name].serviceName == node.serviceName
               && Write(server, node.desired, c.sets[node.name].template) == c.sets[node.name].template
    ensures RestartNeeded(Real(server, blank, replica), inst, c) <==> !AllNumbersSurvive(server, inst, c)
  {
    var p := Real(server, blank, replica);
    forall i | 0 <= i < |AllNodes(inst)|
      ensures var node := AllNodes(inst)[i];
              node.name in c.sets &&
              (Changed(p, inst, c, i) <==> !NumbersSurvive(server, node, c.sets[node.name].template))
    {
      var node := AllNodes(inst)[i];
      assert node in AllNodes(inst);
      QuietAfterWrite(server, node.desired, c.sets[node.name].template);
    }
    if i :| 0 <= i < |AllNodes(inst)| && Changed(p, inst, c, i) {
      FirstChange(p, inst, c, i);
    }
  }

  /** A lost number starts upgrades for ever: whatever happens short of an edit, the nodes stay what
      the spec asks for and every pass that finds no upgrade under way starts one. */
  lemma LostNumberNeverRests(server: Server, blank: Template, replica: Copying, inst: Instance, s: System,
                             acts: seq<Act>)
    requires Lawful(server) && CanonicalSpec(inst) && inst.zeroDowntime
    requires Restless.Still(Real(server, blank, replica), inst, s) && !AllNumbersSurvive(server, inst, s.c)
    requires forall i | 0 <= i < |acts| :: !(acts[i].World? && acts[i].event.Edit?)
    ensures var p := Real(server, blank, replica);
            var t := Run(p, s, acts);
            && Restless.Still(p, inst, t)
            && (t.at.Rest? && t.c.checkpoint.None? ==> exists u :: Becomes(p, t, u) && u.c.checkpoint.Some?)
  {
    var p := Real(server, blank, replica);
    forall i | 0 <= i < |AllNodes(inst)|
      ensures var node := AllNodes(inst)[i];
              && node.name in s.c.sets && s.c.sets[node.name].serviceName == node.serviceName
              && Write(server, node.desired, s.c.sets[node.name].template) == s.c.sets[node.name].template
    {
      if i < |inst.secondaries| {
        assert Restless.NodeStill(p, SecondaryRole, inst.secondaries[i], s.c);
      }
    }
    FiresIffNumberLost(server, blank, replica, inst, s.c);
    Restless.UpgradesNeverStop(p, inst, s, acts);
  }
}
