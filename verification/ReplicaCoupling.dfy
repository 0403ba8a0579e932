/** The update replica and the checkpoint, with the operator restarted after any API call. */
module ReplicaCoupling {
  import opened PodTree
  import opened PodTemplate
  import opened Stages
  import opened Cluster
  import opened Protocol
  import opened StageProtocol

  /** A standalone node of a fixed name. Everything else may be edited at any time. */
  predicate Alone(main: string, inst: Instance) {
    inst.main.name == main && inst.secondaries == []
  }

  predicate Live(main: string, c: Cluster) {
    ReplicaOf(main) in c.sets && !c.sets[ReplicaOf(main)].terminating
  }

  predicate Dismissed(main: string, c: Cluster) {
    ReplicaOf(main) in c.sets ==> c.sets[ReplicaOf(main)].terminating
  }

  /** The replica is created when the operator asks for it, and not while an old one is leaving. */
  predicate Allowed(main: string, s: System, a: Act) {
    match a
    case Op(ok) => s.at.ReplicaMake? ==> ok && (ReplicaOf(main) in s.c.sets ==> Live(main, s.c))
    case Crash => true
    case World(e) => e.Edit? ==> Alone(main, e.inst)
  }

  ghost predicate AllowedRun(main: string, p: Platform, s: System, acts: seq<Act>)
    requires WellFormed(s.at)
  {
    forall i | 0 <= i < |acts| :: Allowed(main, Trace(p, s, acts)[i], acts[i])
  }

  predicate Linked(main: string, s: System) {
    && (s.c.teamcity.Some? ==> Alone(main, s.c.teamcity.value))
    && (!s.at.Rest? ==> Alone(main, s.at.inst))
    && (ReplicaOf(main) in s.c.sets ==> s.c.sets[ReplicaOf(main)].role == ReplicaRole)
    && (s.at.Prune? ==> ReplicaOf(main) !in s.at.rest)
    && (s.c.checkpoint in {Some(ReplicaStarting), Some(ReplicaReady), Some(MainShuttingDown)} ==> Live(main, s.c))
    && (s.c.checkpoint == Some(UpdateFinished) ==> Dismissed(main, s.c))
    && (s.at.Persist? || s.at.PersistUpdate? ==>
          && (s.at.desired == ReplicaStarting ==> Live(main, s.c))
          && (s.at.desired == UpdateFinished ==> Dismissed(main, s.c)))
  }

  predicate CoupledReplica(main: string, s: System) {
    WellFormed(s.at) && Coupled(s) && Linked(main, s)
  }

  lemma FinalizerCallKeeps(main: string, p: Platform, s: System, ok: bool)
    requires CoupledReplica(main, s) && Allowed(main, s, Op(ok)) && InFinalizer(s.at)
    ensures Linked(main, CallFinalizer(p, s, ok))
  {
    assert |ReplicaOf(main)| > |main|;
  }

  lemma DetectionCallKeeps(main: string, p: Platform, s: System, ok: bool)
    requires CoupledReplica(main, s) && Allowed(main, s, Op(ok)) && InDetection(s.at)
    ensures Linked(main, CallDetection(p, s, ok))
  {
    assert |ReplicaOf(main)| > |main|;
  }

  lemma HandlerCallKeeps(main: string, p: Platform, s: System, ok: bool)
    requires CoupledReplica(main, s) && Allowed(main, s, Op(ok)) && InHandler(s.at)
    ensures Linked(main, CallHandler(p, s, ok))
  {
    assert |ReplicaOf(main)| > |main|;
  }

  lemma PersistCallKeeps(main: string, p: Platform, s: System, ok: bool)
    requires CoupledReplica(main, s) && Allowed(main, s, Op(ok)) && InPersist(s.at)
    ensures Linked(main, CallPersist(p, s, ok))
  {
    assert |ReplicaOf(main)| > |main|;
  }

  lemma MainCallKeeps(main: string, p: Platform, s: System, ok: bool)
    requires CoupledReplica(main, s) && Allowed(main, s, Op(ok)) && InMain(s.at)
    ensures Linked(main, CallMain(p, s, ok))
  {
    assert |ReplicaOf(main)| > |main|;
  }

  lemma GateCallKeeps(main: string, p: Platform, s: System, ok: bool)
    requires CoupledReplica(main, s) && Allowed(main, s, Op(ok)) && InGate(s.at)
    ensures Linked(main, CallGate(p, s, ok))
  {
    assert |ReplicaOf(main)| > |main|;
  }

  lemma NodeCallKeeps(main: string, p: Platform, s: System, ok: bool)
    requires CoupledReplica(main, s) && Allowed(main, s, Op(ok)) && InNode(s.at)
    ensures Linked(main, CallNode(p, s, ok))
  {
    assert |ReplicaOf(main)| > |main|;
  }

  lemma StepKeeps(main: string, p: Platform, s: System, a: Act)
    requires CoupledReplica(main, s) && Allowed(main, s, a)
    ensures CoupledReplica(main, Step(p, s, a))
  {
    StepIsLegal(p, s, a);
    if a.Op? {
      CallByGroup(p, s, a.ok);
      if InFinalizer(s.at) {
        FinalizerCallKeeps(main, p, s, a.ok);
      } else if InDetection(s.at) {
        DetectionCallKeeps(main, p, s, a.ok);
      } else if InHandler(s.at) {
        HandlerCallKeeps(main, p, s, a.ok);
      } else if InPersist(s.at) {
        PersistCallKeeps(main, p, s, a.ok);
      } else if InMain(s.at) {
        MainCallKeeps(main, p, s, a.ok);
      } else if InGate(s.at) {
        GateCallKeeps(main, p, s, a.ok);
      } else if InNode(s.at) {
        NodeCallKeeps(main, p, s, a.ok);
      }
    }
  }

  /** From ReplicaStarting to MainShuttingDown the replica object exists and is not being deleted;
      at UpdateFinished the operator has deleted it. Calls other than the replica's creation may
      fail, the operator may crash anywhere, pods may fail, and the spec may be edited. */
  lemma {:induction false} StageTellsReplica(main: string, p: Platform, s: System, acts: seq<Act>, i: nat)
    requires CoupledReplica(main, s) && AllowedRun(main, p, s, acts) && i <= |acts|
    ensures CoupledReplica(main, Trace(p, s, acts)[i])
    ensures var c := Trace(p, s, acts)[i].c;
            && (c.checkpoint in {Some(ReplicaStarting), Some(ReplicaReady), Some(MainShuttingDown)} ==> Live(main, c))
            && (c.checkpoint == Some(UpdateFinished) ==> Dismissed(main, c))
  {
    if i > 0 {
      StageTellsReplica(main, p, s, acts, i - 1);
      StepKeeps(main, p, Trace(p, s, acts)[i - 1], acts[i - 1]);
    }
  }
}
