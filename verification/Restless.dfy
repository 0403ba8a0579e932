/** A detector that fires at nodes which need no write. */
module Restless {
  import opened PodTree
  import opened PodTemplate
  import opened Stages
  import opened Cluster
  import opened Protocol
  import opened Passes
  import opened Detection
  import Restarts
  import Ordering

  predicate NodeStill(p: Platform, role: Role, node: Node, c: Cluster) {
    && node.name in c.sets
    && var x := c.sets[node.name];
    && x.role == role && x.serviceName == node.serviceName && !x.terminating
    && p.write(node.desired, x.template) == x.template
  }

  /** Every node is what the spec asks for, and nobody has a reason to delete one. */
  predicate Still(p: Platform, inst: Instance, s: System) {
    && WellFormed(s.at)
    && s.c.teamcity == Some(inst) && !inst.deleting && DistinctNames(inst)
    && (!s.at.Rest? ==> s.at.inst == inst)
    && NodeStill(p, MainRole, inst.main, s.c)
    && (forall i | 0 <= i < |inst.secondaries| :: NodeStill(p, SecondaryRole, inst.secondaries[i], s.c))
    && !InFinalizer(s.at) && !s.at.MainRemove? && !s.at.MainRecheck? && !s.at.NodeRemove? && !s.at.NodeRecheck?
    && (s.at.Prune? ==> s.at.rest !! SecondaryNames(inst) + {inst.main.name})
  }

  /** The StatefulSets of the nodes keep what matters here. */
  predicate Untouched(inst: Instance, c: Cluster, d: Cluster) {
    && d.teamcity == c.teamcity
    && forall n | n in SecondaryNames(inst) + {inst.main.name} && n in c.sets && !c.sets[n].terminating ::
         && n in d.sets && d.sets[n].role == c.sets[n].role && d.sets[n].serviceName == c.sets[n].serviceName
         && d.sets[n].terminating == c.sets[n].terminating && d.sets[n].template == c.sets[n].template
  }

  lemma UntouchedStaysStill(p: Platform, inst: Instance, s: System, d: Cluster)
    requires Still(p, inst, s) && Untouched(inst, s.c, d)
    ensures Still(p, inst, System(d, s.at))
    ensures Restarts.SameTemplates(inst, s.c, d)
  {
    forall i | 0 <= i < |inst.secondaries| ensures NodeStill(p, SecondaryRole, inst.secondaries[i], d) {
      assert NodeStill(p, SecondaryRole, inst.secondaries[i], s.c);
      assert inst.secondaries[i].name in SecondaryNames(inst);
    }
    forall i | 0 <= i < |AllNodes(inst)|
      ensures var n := AllNodes(inst)[i].name;
              && n in s.c.sets && n in d.sets
              && d.sets[n].template == s.c.sets[n].template && d.sets[n].serviceName == s.c.sets[n].serviceName
    {
      if i < |inst.secondaries| {
        assert NodeStill(p, SecondaryRole, inst.secondaries[i], s.c);
        assert inst.secondaries[i].name in SecondaryNames(inst);
      }
    }
  }

  lemma WriteLeavesUntouched(p: Platform, inst: Instance, c: Cluster, role: Role, node: Node)
    requires NodeStill(p, role, node, c)
    ensures Apply(p, c, role, node).Some? && Apply(p, c, role, node).value.sets == c.sets
    ensures Untouched(inst, c, Apply(p, c, role, node).value)
  {
  }

  lemma CallLeavesUntouched(p: Platform, inst: Instance, s: System, ok: bool)
    requires Still(p, inst, s) && !InMain(s.at) && !InGate(s.at) && !InNode(s.at)
    ensures Untouched(inst, s.c, Call(p, s, ok).c)
  {
    ReplicaNameIsNotMain(inst);
    assert ReplicaName(inst) !in SecondaryNames(inst);
  }

  lemma GateLeavesUntouched(p: Platform, inst: Instance, s: System, ok: bool)
    requires Still(p, inst, s) && InGate(s.at)
    ensures Still(p, inst, CallGate(p, s, ok)) && Untouched(inst, s.c, CallGate(p, s, ok).c)
  {
    if s.at.Prune? {
      assert Ordering.First(s.at.rest) in s.at.rest;
      UntouchedStaysStill(p, inst, s, CallGate(p, s, ok).c);
    }
  }

  lemma MainLeavesUntouched(p: Platform, inst: Instance, s: System, ok: bool)
    requires Still(p, inst, s) && InMain(s.at)
    ensures Still(p, inst, CallMain(p, s, ok)) && Untouched(inst, s.c, CallMain(p, s, ok).c)
  {
    WriteLeavesUntouched(p, inst, s.c, MainRole, inst.main);
    UntouchedStaysStill(p, inst, s, CallMain(p, s, ok).c);
  }

  lemma NodeLeavesUntouched(p: Platform, inst: Instance, s: System, ok: bool)
    requires Still(p, inst, s) && InNode(s.at)
    ensures Still(p, inst, CallNode(p, s, ok)) && Untouched(inst, s.c, CallNode(p, s, ok).c)
  {
    if !s.at.LastCheck? {
      FoundByName(inst.secondaries, s.at.j);
      assert NodeStill(p, SecondaryRole, inst.secondaries[s.at.j], s.c);
      WriteLeavesUntouched(p, inst, s.c, SecondaryRole, inst.secondaries[s.at.j]);
    }
    UntouchedStaysStill(p, inst, s, CallNode(p, s, ok).c);
  }

  lemma EventLeavesUntouched(inst: Instance, c: Cluster, e: Event)
    requires !e.Edit?
    ensures Untouched(inst, c, Happen(c, e))
  {
  }

  lemma StepStaysStill(p: Platform, inst: Instance, s: System, a: Act)
    requires Still(p, inst, s) && !(a.World? && a.event.Edit?)
    ensures Still(p, inst, Step(p, s, a)) && Restarts.SameTemplates(inst, s.c, Step(p, s, a).c)
  {
    var t := Step(p, s, a);
    if a.World? {
      EventLeavesUntouched(inst, s.c, a.event);
    } else if a.Op? {
      CallByGroup(p, s, a.ok);
      if InMain(s.at) {
        MainLeavesUntouched(p, inst, s, a.ok);
      } else if InGate(s.at) {
        GateLeavesUntouched(p, inst, s, a.ok);
      } else if InNode(s.at) {
        NodeLeavesUntouched(p, inst, s, a.ok);
      } else {
        CallLeavesUntouched(p, inst, s, a.ok);
      }
    }
    UntouchedStaysStill(p, inst, s, t.c);
  }

  /** Whatever fails, crashes or happens, short of an edit, all nodes stay what the spec asks for,
      the detector goes on asking for a restart, and so every pass that finds no upgrade under way
      starts one. */
  lemma {:induction false} UpgradesNeverStop(p: Platform, inst: Instance, s: System, acts: seq<Act>)
    requires Still(p, inst, s) && inst.zeroDowntime && RestartNeeded(p, inst, s.c)
    requires forall i | 0 <= i < |acts| :: !(acts[i].World? && acts[i].event.Edit?)
    ensures var t := Run(p, s, acts);
            && Still(p, inst, t) && RestartNeeded(p, inst, t.c)
            && (t.at.Rest? && t.c.checkpoint.None? ==> exists u :: Becomes(p, t, u) && u.c.checkpoint.Some?)
    decreases |acts|
  {
    if acts == [] {
      if s.at.Rest? && s.c.checkpoint.None? {
        NextPassStarts(p, inst, s.c, s.at.outcome);
      }
    } else {
      StepStaysStill(p, inst, s, acts[0]);
      Restarts.SameTemplatesSameVerdict(p, inst, s.c, Step(p, s, acts[0]).c);
      UpgradesNeverStop(p, inst, Step(p, s, acts[0]), acts[1..]);
    }
  }

  lemma NextPassStarts(p: Platform, inst: Instance, c: Cluster, o: Outcome)
    requires c.teamcity == Some(inst) && !inst.deleting && inst.zeroDowntime
    requires RestartNeeded(p, inst, c) && c.checkpoint.None?
    ensures exists u :: Becomes(p, System(c, Rest(o)), u) && u.c.checkpoint.Some?
  {
    var desired := if |inst.secondaries| > 0 then MainShuttingDown else ReplicaCreated;
    var u := System(c.(checkpoint := Some(desired)), AfterPersist(inst, desired));
    PassOpens(p, inst, c, o);
    AskBecomes(p, inst, c, desired);
    BecomesThen(p, System(c, Rest(o)), System(c, Persist(inst, desired)), u);
  }
}
