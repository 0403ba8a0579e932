/** What the checkpoint does over whole runs, with any calls failing, any crashes and any edits. */
module StageProtocol {
  import opened PodTree
  import opened PodTemplate
  import opened Stages
  import opened Cluster
  import opened Protocol

  /** The stage that a fresh checkpoint carries. */
  function FirstStage(inst: Instance): Stage {
    if |inst.secondaries| > 0 then MainShuttingDown else ReplicaCreated
  }

  /** What the worker knows about the checkpoint between reading it and writing it. */
  predicate Coupled(s: System) {
    var k := s.c.checkpoint;
    match s.at
    case ReplicaReadMain(_) => k == Some(ReplicaCreated)
    case ReplicaMake(_, _) => k == Some(ReplicaCreated)
    case ReplicaPoll(_) => k == Some(ReplicaStarting)
    case CertRevision(_) => k == Some(MainShuttingDown)
    case CertGeneration(_, _) => k == Some(MainShuttingDown)
    case ReplicaLookup(_) => k == Some(MainReady)
    case ReplicaDelete(_) => k == Some(MainReady)
    case DropRead(_) => k == Some(UpdateFinished)
    case DropDelete(_, _) => k == Some(UpdateFinished)
    case Persist(inst, desired) => if k.None? then desired == FirstStage(inst) else Rank(desired) == Rank(k.value) + 1
    case PersistCreate(inst, desired) => k.None? && desired == FirstStage(inst)
    case PersistUpdate(_, desired) => k.Some? && Rank(desired) == Rank(k.value) + 1
    case _ => true
  }

  /** The only things that may happen to the checkpoint in one step. */
  predicate LegalMove(s: System, t: System) {
    var k, l := s.c.checkpoint, t.c.checkpoint;
    || k == l
    || (k.None? && (s.at.PersistCreate? && l == Some(FirstStage(s.at.inst))))
    || (k.Some? && l.Some? && Rank(l.value) == Rank(k.value) + 1)
    || (k == Some(UpdateFinished) && l.None? && s.at.DropDelete?)
    || (k.Some? && l.None? && s.at.FinalDelete?)
  }

  lemma FinalizerCallIsLegal(p: Platform, s: System, ok: bool)
    requires WellFormed(s.at) && Coupled(s) && InFinalizer(s.at)
    ensures Coupled(CallFinalizer(p, s, ok)) && LegalMove(s, CallFinalizer(p, s, ok))
  {
  }

  lemma DetectionCallIsLegal(p: Platform, s: System, ok: bool)
    requires WellFormed(s.at) && Coupled(s) && InDetection(s.at)
    ensures Coupled(CallDetection(p, s, ok)) && LegalMove(s, CallDetection(p, s, ok))
  {
  }

  lemma HandlerCallIsLegal(p: Platform, s: System, ok: bool)
    requires WellFormed(s.at) && Coupled(s) && InHandler(s.at)
    ensures Coupled(CallHandler(p, s, ok)) && LegalMove(s, CallHandler(p, s, ok))
  {
  }

  lemma PersistCallIsLegal(p: Platform, s: System, ok: bool)
    requires WellFormed(s.at) && Coupled(s) && InPersist(s.at)
    ensures Coupled(CallPersist(p, s, ok)) && LegalMove(s, CallPersist(p, s, ok))
  {
  }

  lemma MainCallIsLegal(p: Platform, s: System, ok: bool)
    requires WellFormed(s.at) && Coupled(s) && InMain(s.at)
    ensures Coupled(CallMain(p, s, ok)) && LegalMove(s, CallMain(p, s, ok))
  {
  }

  lemma GateCallIsLegal(p: Platform, s: System, ok: bool)
    requires WellFormed(s.at) && Coupled(s) && InGate(s.at)
    ensures Coupled(CallGate(p, s, ok)) && LegalMove(s, CallGate(p, s, ok))
  {
  }

  lemma NodeCallIsLegal(p: Platform, s: System, ok: bool)
    requires WellFormed(s.at) && Coupled(s) && InNode(s.at)
    ensures Coupled(CallNode(p, s, ok)) && LegalMove(s, CallNode(p, s, ok))
  {
  }

  lemma StepIsLegal(p: Platform, s: System, a: Act)
    requires WellFormed(s.at) && Coupled(s)
    ensures Coupled(Step(p, s, a))
    ensures LegalMove(s, Step(p, s, a))
  {
    if a.Op? {
      CallByGroup(p, s, a.ok);
      if InFinalizer(s.at) {
        FinalizerCallIsLegal(p, s, a.ok);
      } else if InDetection(s.at) {
        DetectionCallIsLegal(p, s, a.ok);
      } else if InHandler(s.at) {
        HandlerCallIsLegal(p, s, a.ok);
      } else if InPersist(s.at) {
        PersistCallIsLegal(p, s, a.ok);
      } else if InMain(s.at) {
        MainCallIsLegal(p, s, a.ok);
      } else if InGate(s.at) {
        GateCallIsLegal(p, s, a.ok);
      } else if InNode(s.at) {
        NodeCallIsLegal(p, s, a.ok);
      }
    }
  }

  lemma {:induction false} CoupledAlong(p: Platform, s: System, acts: seq<Act>, i: nat)
    requires WellFormed(s.at) && Coupled(s) && i <= |acts|
    ensures Coupled(Trace(p, s, acts)[i])
  {
    if i > 0 {
      CoupledAlong(p, s, acts, i - 1);
      StepIsLegal(p, Trace(p, s, acts)[i - 1], acts[i - 1]);
    }
  }

  /** Every step of every run treats the checkpoint legally. */
  lemma RunIsLegal(p: Platform, s: System, acts: seq<Act>)
    requires WellFormed(s.at) && Coupled(s)
    ensures var trace := Trace(p, s, acts); forall i | 0 <= i < |acts| :: LegalMove(trace[i], trace[i + 1])
  {
    var trace := Trace(p, s, acts);
    forall i | 0 <= i < |acts| ensures LegalMove(trace[i], trace[i + 1]) {
      CoupledAlong(p, s, acts, i);
      StepIsLegal(p, trace[i], acts[i]);
    }
  }

  /** From here on a run is seen through its checkpoints alone. */
  function History(trace: seq<System>): (stages: seq<Option<Stage>>)
    ensures |stages| == |trace|
    ensures forall i | 0 <= i < |trace| :: stages[i] == trace[i].c.checkpoint
  {
    seq(|trace|, i requires 0 <= i < |trace| => trace[i].c.checkpoint)
  }

  /** While a checkpoint lives, its stage only rises, and it passes through every stage between. */
  lemma {:induction false} StagesClimb(p: Platform, s: System, acts: seq<Act>, i: nat, j: nat, rank: nat)
    requires WellFormed(s.at) && Coupled(s)
    requires i <= j <= |acts|
    requires var h := History(Trace(p, s, acts)); forall k | i <= k <= j :: h[k].Some?
    ensures var h := History(Trace(p, s, acts));
            && Rank(h[i].value) <= Rank(h[j].value)
            && (Rank(h[i].value) <= rank <= Rank(h[j].value) ==> exists k | i <= k <= j :: Rank(h[k].value) == rank)
    decreases j - i
  {
    RunIsLegal(p, s, acts);
    var h := History(Trace(p, s, acts));
    if i < j {
      StagesClimb(p, s, acts, i, j - 1, rank);
      assert LegalMove(Trace(p, s, acts)[j - 1], Trace(p, s, acts)[j]);
      if rank == Rank(h[j].value) {
        assert i <= j <= j && Rank(h[j].value) == rank;
      }
    } else {
      assert i <= i <= j && Rank(h[i].value) == Rank(h[j].value);
    }
  }
}
