/** What the operator does not touch while an upgrade is under way, for instances of any shape. */
module WriteFreeze {
  import opened PodTree
  import opened PodTemplate
  import opened Stages
  import opened Cluster
  import opened Protocol
  import opened StageProtocol
  import opened Passes
  import Convergence
  import Placing
  import SingleNode

  predicate InBuilderPass(at: Point) {
    InMain(at) || InGate(at) || InNode(at)
  }

  /** Every stage but the two whose handlers let the pass go on. */
  predicate IsFrozen(checkpoint: Option<Stage>) {
    checkpoint.Some? && checkpoint.value != ReplicaReady && checkpoint.value != UpdateFinished
  }

  /** Calls succeed; the world, the user and crashes are unrestricted. */
  predicate CallsSucceed(acts: seq<Act>) {
    forall a | a in acts :: a.Op? ==> a.ok
  }

  predicate OutsideBuilderPass(s: System) {
    && WellFormed(s.at)
    && Coupled(s)
    && !InBuilderPass(s.at)
    && (s.at.Detect? ==> s.at.ongoing)
  }

  lemma FrozenCallStaysOutside(p: Platform, s: System)
    requires OutsideBuilderPass(s) && IsFrozen(s.c.checkpoint)
    ensures OutsideBuilderPass(Call(p, s, true))
  {
    StepIsLegal(p, s, Op(true));
  }

  /** Nothing that the builders own changes outside the builder pass, the replica excepted. */
  lemma OnlyReplicaIsTouched(p: Platform, s: System, ok: bool, n: string)
    requires WellFormed(s.at) && !InBuilderPass(s.at)
    requires s.at.Rest? || n != ReplicaName(s.at.inst)
    ensures var c, d := s.c, Call(p, s, ok).c;
            && d.support == c.support
            && (n in d.sets <==> n in c.sets)
            && (n in c.sets ==> d.sets[n] == c.sets[n])
  {
  }

  /** From a resting operator, as long as the checkpoint stays at a frozen stage, no pass enters
      the builders, however many passes there are. */
  lemma {:induction false} NoBuilderPassWhileFrozen(p: Platform, s: System, acts: seq<Act>, i: nat)
    requires OutsideBuilderPass(s) && CallsSucceed(acts) && i <= |acts|
    requires forall j | 0 <= j < i :: IsFrozen(Trace(p, s, acts)[j].c.checkpoint)
    ensures OutsideBuilderPass(Trace(p, s, acts)[i])
  {
    if i > 0 {
      NoBuilderPassWhileFrozen(p, s, acts, i - 1);
      var t := Trace(p, s, acts)[i - 1];
      StepIsLegal(p, t, acts[i - 1]);
      if acts[i - 1].Op? {
        assert acts[i - 1] in acts;
        FrozenCallStaysOutside(p, t);
      }
    }
  }

  // ---- Secondaries ----

  /** The checkpoint was absent when the gate was passed, and it still is. */
  predicate GateHolds(s: System) {
    && WellFormed(s.at)
    && (s.at.NodeHook? || s.at.NodeRemove? || s.at.NodeRecheck? || s.at.NodeWrite? ==> s.c.checkpoint.None?)
  }

  lemma StepHoldsGate(p: Platform, s: System, a: Act)
    requires GateHolds(s)
    requires s.at.GateOngoing? && a.Op? ==> a.ok
    ensures GateHolds(Step(p, s, a))
  {
  }

  /** No secondary is created, rewritten or recreated while a checkpoint exists, provided that the
      gate's read of the checkpoint does not fail. */
  lemma {:induction false} NoSecondaryWriteDuringUpgrade(p: Platform, s: System, acts: seq<Act>, i: nat)
    requires GateHolds(s) && i <= |acts|
    requires forall j | 0 <= j < i :: Trace(p, s, acts)[j].at.GateOngoing? && acts[j].Op? ==> acts[j].ok
    ensures GateHolds(Trace(p, s, acts)[i])
  {
    if i > 0 {
      NoSecondaryWriteDuringUpgrade(p, s, acts, i - 1);
      StepHoldsGate(p, Trace(p, s, acts)[i - 1], acts[i - 1]);
    }
  }

  /** So the template of a secondary changes only where there is no checkpoint. */
  lemma SecondaryChangesWithoutUpgrade(p: Platform, s: System, acts: seq<Act>, i: nat, n: string)
    requires GateHolds(s) && i < |acts|
    requires forall j | 0 <= j < i :: Trace(p, s, acts)[j].at.GateOngoing? && acts[j].Op? ==> acts[j].ok
    requires var t, u := Trace(p, s, acts)[i], Trace(p, s, acts)[i + 1];
             && n in t.c.sets && n in u.c.sets && t.c.sets[n].template != u.c.sets[n].template
             && (!t.at.Rest? ==> n != t.at.inst.main.name && n != ReplicaName(t.at.inst))
    ensures Trace(p, s, acts)[i].c.checkpoint.None?
  {
    NoSecondaryWriteDuringUpgrade(p, s, acts, i);
    if acts[i].Op? {
      TemplateWriters(p, Trace(p, s, acts)[i], acts[i].ok, n);
    }
  }

  /** Without the proviso it fails: with a checkpoint, the gate's last read decides whether the pass
      ends there or brings every secondary to the spec, next to the upgrade. */
  lemma FailedReadWritesSecondaries(p: Platform, s: System, ok: bool)
    requires WriteSettles(p) && WellFormed(s.at)
    requires s.at.GateOngoing? && s.c.checkpoint.Some? && Convergence.Fits(s.at.inst, s.c)
    ensures var inst, t, d := s.at.inst, Call(p, s, ok), Convergence.AllPlaced(p, s.at.inst, s.c);
            && d.checkpoint == s.c.checkpoint
            && (forall j | 0 <= j < |inst.secondaries| :: Placing.InPlace(p, inst, d, j))
            && if !ok && s.at.settled then Becomes(p, t, System(d, LastCheck(inst)))
               else t == System(s.c, Rest(Requeued))
  {
    var inst := s.at.inst;
    Convergence.PlacedKeeps(p, inst, s.c);
    forall m | 0 <= m < |inst.secondaries| ensures Placing.InLine(inst, s.c, m) {
      Convergence.FitsInLine(inst, s.c, m);
    }
    var goal := System(Convergence.AllPlaced(p, inst, s.c), LastCheck(inst));
    Placing.PlacedCalls(p, inst, s.c, 0, |inst.secondaries|, goal);
    CallByGroup(p, s, ok);
  }

  // ---- The main node of a standalone upgrade ----

  /** Where no replica answers, a write of the main node writes what is there. */
  lemma UnprotectedWriteChangesNothing(p: Platform, id: SingleNode.Identity, s: System)
    requires SingleNode.Inv(p, id, s) && s.at.MainWrite? && !SingleNode.ReplicaUp(id, s.c)
    ensures Call(p, s, true).c == s.c
  {
    assert Call(p, s, true).c.sets == s.c.sets;
  }

  lemma ReplicaUpWhereChanged(p: Platform, id: SingleNode.Identity, s: System, ok: bool)
    requires SingleNode.Inv(p, id, s) && id.main in Call(p, s, ok).c.sets
    requires Call(p, s, ok).c.sets[id.main].template != s.c.sets[id.main].template
    ensures SingleNode.ReplicaUp(id, s.c)
  {
    TemplateWriters(p, s, ok, id.main);
    SingleNode.NoOtherPoint(p, id, s);
    if !SingleNode.ReplicaUp(id, s.c) {
      assert |ReplicaName(s.at.inst)| > |id.main|;
      UnprotectedWriteChangesNothing(p, id, s);
    }
  }

  /** In every admissible run the template of the main node changes only while the replica answers. */
  lemma MainChangesBehindReplica(p: Platform, id: SingleNode.Identity, s: System, acts: seq<Act>, i: nat)
    requires WriteSettles(p) && SingleNode.AtRest(p, id, s) && SingleNode.AdmissibleRun(p, id, s, acts) && i < |acts|
    requires var c, d := Trace(p, s, acts)[i].c, Trace(p, s, acts)[i + 1].c;
             id.main in c.sets && id.main in d.sets && c.sets[id.main].template != d.sets[id.main].template
    ensures SingleNode.ReplicaUp(id, Trace(p, s, acts)[i].c)
  {
    var t := Trace(p, s, acts)[i];
    SingleNode.RunKeepsInv(p, id, s, acts, i);
    if acts[i].Op? {
      ReplicaUpWhereChanged(p, id, t, acts[i].ok);
    }
  }
}
