/** Zero-downtime upgrade of a standalone main node: somebody serves in every reachable state. */
module SingleNode {
  import opened PodTree
  import opened PodTemplate
  import opened Stages
  import opened Cluster
  import opened Protocol
  import opened StageProtocol

  /** What the builder makes of the template `t` of the main node. */
  function Target(p: Platform, inst: Instance, t: Template): Template {
    p.write(inst.main.desired, t)
  }

  predicate Conforms(p: Platform, inst: Instance, t: Template) {
    Target(p, inst, t) == t
  }

  /** If the detector is quiet about an instance then the write changes nothing. */
  predicate Sees(p: Platform, inst: Instance, t: Template) {
    !p.detect(inst.main.desired, t) ==> Conforms(p, inst, t)
  }

  /** The instances of this module differ only in what may be changed in place. */
  datatype Identity = Identity(main: string, serviceName: string) {
    function Replica(): string { ReplicaOf(main) }
  }

  predicate Standalone(id: Identity, inst: Instance) {
    && inst.zeroDowntime
    && !inst.deleting
    && inst.main.name == id.main
    && inst.main.serviceName == id.serviceName
    && inst.secondaries == []
  }

  /** A main node anywhere in a rollout, without failures of its own. */
  predicate Rolling(id: Identity, x: StatefulSet) {
    && x.role == MainRole
    && x.serviceName == id.serviceName
    && !x.terminating
    && 0 < x.observed <= x.generation
    && (IsNewestGeneration(x) ==> x.update == x.template)
    && (x.current == x.update ==> x.pod == x.update && x.ready)
    && (x.current == x.template ==> x.update == x.template)
  }

  /** A replica that stays is never written after its creation. */
  predicate Steady(x: StatefulSet) {
    && x.role == ReplicaRole
    && 0 < x.generation
    && (!x.terminating ==> x.template == x.pod == x.current == x.update)
  }

  predicate ReplicaUp(id: Identity, c: Cluster) {
    && id.Replica() in c.sets
    && c.sets[id.Replica()].ready
    && !c.sets[id.Replica()].terminating
  }

  predicate ReplicaLeaving(id: Identity, c: Cluster) {
    id.Replica() in c.sets ==> c.sets[id.Replica()].terminating
  }

  /** No replica that answers is on its way out. */
  predicate NoDyingReplica(id: Identity, c: Cluster) {
    id.Replica() in c.sets && c.sets[id.Replica()].ready ==> !c.sets[id.Replica()].terminating
  }

  predicate MainUp(id: Identity, c: Cluster) {
    id.main in c.sets && c.sets[id.main].ready
  }

  /** Somebody answers: the main pod, or a replica that nobody has started to delete. */
  predicate Serving(id: Identity, c: Cluster) {
    MainUp(id, c) || ReplicaUp(id, c)
  }

  // ---- Where an upgrade is safe ----

  /** Writing `inst` over the template `t` does not go back to one that is being rolled out: the
      status could then say "finished" about a pod of another template. */
  predicate Lands(p: Platform, inst: Instance, x: StatefulSet, t: Template) {
    Conforms(p, inst, t) || Target(p, inst, t) !in {x.current, x.update, x.template}
  }

  /** A replica that stays is the one that `inst` would make of the template `t`. */
  predicate Fresh(p: Platform, id: Identity, c: Cluster, inst: Instance, t: Template) {
    id.Replica() in c.sets && !c.sets[id.Replica()].terminating ==>
      c.sets[id.Replica()].template == p.replica(inst, t)
  }

  /** The replica answers, and writing the main node would not change what it is made of. */
  predicate Covers(p: Platform, id: Identity, c: Cluster, inst: Instance, t: Template) {
    ReplicaUp(id, c) && Fresh(p, id, c, inst, Target(p, inst, t))
  }

  /** With the checkpoint at `k`, the spec `inst` and the template `t` in the main node, an operator
      that starts from here restarts the main node only behind a replica. */
  predicate Safe(p: Platform, id: Identity, c: Cluster, k: Option<Stage>, inst: Instance, t: Template)
    requires id.main in c.sets
  {
    var x := c.sets[id.main];
    var still := Settled(x) && t == x.template;
    match k
    case None => still && ReplicaLeaving(id, c) && Sees(p, inst, t)
    case Some(UpdateInitiated) => false
    case Some(ReplicaCreated) =>
      && (still || ReplicaUp(id, c)) && Lands(p, inst, x, t) && Fresh(p, id, c, inst, t)
      && (Sees(p, inst, t) || Covers(p, id, c, inst, t))
    case Some(ReplicaStarting) =>
      && (still || ReplicaUp(id, c)) && Lands(p, inst, x, t) && NoDyingReplica(id, c)
      && (Sees(p, inst, t) || ReplicaUp(id, c))
    case Some(ReplicaReady) => ReplicaUp(id, c) && Lands(p, inst, x, t)
    case Some(MainShuttingDown) => ReplicaUp(id, c) && Conforms(p, inst, t)
    case Some(MainReady) => still && Conforms(p, inst, t)
    case Some(UpdateFinished) => still && Conforms(p, inst, t) && ReplicaLeaving(id, c)
  }

  /** The builder pass has not yet written the main node. */
  predicate BeforeMainWrite(at: Point) {
    at.Support? || at.MainHook? || at.MainWrite?
  }

  /** The pass may still come to act on the stage that is checkpointed. */
  predicate MayAct(p: Platform, at: Point, t: Template)
    requires !at.Rest?
  {
    || at.ReadOngoing?
    || (at.Detect? && (at.ongoing || p.detect(at.inst.main.desired, t)))
    || at.ReadStage?
  }

  /** With reads that the theorem admits, the pass may write the main node without another stage
      being persisted before. */
  predicate MayBuild(p: Platform, at: Point, k: Option<Stage>, t: Template)
    requires !at.Rest?
  {
    || BeforeMainWrite(at)
    || ((at.ReadOngoing? || (at.Detect? && !at.ongoing)) && !p.detect(at.inst.main.desired, t))
    || (k == Some(MainReady) && (MayAct(p, at, t) || at.ReplicaLookup?))
  }

  /** The pass may persist MainShuttingDown and write the main node after that. */
  predicate MayShutDown(p: Platform, at: Point, k: Option<Stage>, t: Template)
    requires !at.Rest?
  {
    k == Some(ReplicaReady) && (MayAct(p, at, t) || at.Persist? || at.PersistUpdate?)
  }

  predicate MayMakeReplica(p: Platform, at: Point, k: Option<Stage>, t: Template)
    requires !at.Rest?
  {
    k == Some(ReplicaCreated) && (MayAct(p, at, t) || at.ReplicaReadMain? || at.ReplicaMake?)
  }

  /** The pass may drop the checkpoint and write the main node after that. */
  predicate MayFinish(p: Platform, at: Point, k: Option<Stage>, t: Template)
    requires !at.Rest?
  {
    k == Some(UpdateFinished) && (MayAct(p, at, t) || at.DropRead? || at.DropDelete?)
  }

  /** Between persisting MainShuttingDown and writing the main node. */
  predicate Committed(s: System) {
    s.c.checkpoint == Some(MainShuttingDown) && BeforeMainWrite(s.at)
  }

  /** Wherever the pass at work may still get with the copy that it holds, the spec `inst` finds the
      cluster safe, also if the pass is cut off. */
  predicate Bears(p: Platform, id: Identity, s: System, inst: Instance)
    requires id.main in s.c.sets
  {
    var c, k, t := s.c, s.c.checkpoint, s.c.sets[id.main].template;
    && (!Committed(s) ==> Safe(p, id, c, k, inst, t))
    && (!s.at.Rest? ==>
          var copy := s.at.inst;
          && (MayBuild(p, s.at, k, t) ==> Safe(p, id, c, k, inst, Target(p, copy, t)))
          && (MayShutDown(p, s.at, k, t) ==> Safe(p, id, c, Some(MainShuttingDown), inst, Target(p, copy, t)))
          && (MayMakeReplica(p, s.at, k, t) ==> p.replica(copy, t) == p.replica(inst, t))
          && (MayFinish(p, s.at, k, t) ==> Conforms(p, copy, t)))
  }

  // ---- The steps under which the upgrade keeps its promise ----

  /** The main node, written by `inst`, would still change. */
  predicate Pending(p: Platform, id: Identity, c: Cluster, inst: Instance) {
    id.main in c.sets && !Conforms(p, inst, c.sets[id.main].template)
  }

  /** The write that the replica is there for has not been made yet. */
  predicate InProtectedWrite(p: Platform, id: Identity, s: System) {
    Committed(s) && s.c.teamcity.Some? && Pending(p, id, s.c, s.c.teamcity.value)
  }

  /** A builder pass from here would leave the cluster safe. */
  predicate SafeToBuild(p: Platform, id: Identity, s: System)
    requires !s.at.Rest?
  {
    && id.main in s.c.sets && s.c.teamcity.Some?
    && var t := s.c.sets[id.main].template;
       Safe(p, id, s.c, s.c.checkpoint, s.c.teamcity.value, Target(p, s.at.inst, t))
  }

  /** The revisions were read as equal before the controller saw the latest template. */
  predicate TornCertificate(id: Identity, s: System) {
    && s.at.CertGeneration? && s.at.finished
    && id.main in s.c.sets && s.c.sets[id.main].update != s.c.sets[id.main].template
  }

  /** No step of another kind happens. What each conjunct is for: see the module Hazards. */
  predicate Admissible(p: Platform, id: Identity, s: System, a: Act) {
    match a
    case Op(ok) =>
      // a read of the detector fails only when the builders may go on from there
      && (s.at.Detect? && !SafeToBuild(p, id, s) ==> ok)
      // the pass that persisted MainShuttingDown reaches its write of the main node
      && (InProtectedWrite(p, id, s) ==> ok)
      // the replica of the previous upgrade has stopped before the next one is made
      && (s.at.ReplicaMake? ==> NoDyingReplica(id, s.c))
    case Crash => !InProtectedWrite(p, id, s)
    case World(e) =>
      match e
      // an edit finds the upgrade at a stage that can take it
      case Edit(inst) => Standalone(id, inst) && id.main in s.c.sets && Bears(p, id, s, inst)
      // nothing fails by itself
      case PodFailure(n) => n != id.main && n != id.Replica()
      // the two reads that certify the rollout see one generation
      case Observe(n) => !(n == id.main && TornCertificate(id, s))
      case _ => true
  }

  ghost predicate AdmissibleRun(p: Platform, id: Identity, s: System, acts: seq<Act>)
    requires WellFormed(s.at)
  {
    forall i | 0 <= i < |acts| :: Admissible(p, id, Trace(p, s, acts)[i], acts[i])
  }

  // ---- The invariant ----

  predicate Reached(id: Identity, c: Cluster) {
    && c.teamcity.Some? && Standalone(id, c.teamcity.value)
    && id.main in c.sets && Rolling(id, c.sets[id.main])
    && (id.Replica() in c.sets ==> Steady(c.sets[id.Replica()]))
  }

  predicate ByPoint(p: Platform, id: Identity, s: System)
    requires Reached(id, s.c)
  {
    var c, x := s.c, s.c.sets[id.main];
    && (!s.at.Rest? ==> Standalone(id, s.at.inst) && Lands(p, s.at.inst, x, x.template))
    && (Committed(s) ==> ReplicaUp(id, c))
    && match s.at
       case ReplicaMake(_, t) => t == x.template
       case CertGeneration(_, finished) => finished ==> x.current == x.update
       case Persist(_, d) => Certified(id, c, d)
       case PersistUpdate(_, d) => Certified(id, c, d)
       case Prune(_, rest) => id.main !in rest && id.Replica() !in rest
       case FinalOngoing(_) => false
       case FinalRead(_) => false
       case FinalDelete(_, _) => false
       case FinalRelease(_) => false
       case MainRemove(_) => false
       case MainRecheck(_) => false
       case _ => true
  }

  /** What the handler has established before it asks for stage `d`. */
  predicate Certified(id: Identity, c: Cluster, d: Stage)
    requires id.main in c.sets
  {
    match d
    case ReplicaStarting => NoDyingReplica(id, c)
    case ReplicaReady => ReplicaUp(id, c)
    case MainReady => Settled(c.sets[id.main])
    case UpdateFinished => ReplicaLeaving(id, c)
    case _ => true
  }

  predicate Inv(p: Platform, id: Identity, s: System) {
    && WellFormed(s.at)
    && Coupled(s)
    && Reached(id, s.c)
    && Bears(p, id, s, s.c.teamcity.value)
    && ByPoint(p, id, s)
  }

  // ---- The world keeps the invariant ----

  /** What the cluster may do to the main node while nobody writes it. */
  predicate MainAdvances(x: StatefulSet, y: StatefulSet) {
    && y.template == x.template
    && y.current in {x.current, x.update}
    && y.update in {x.update, x.template}
    && (Settled(x) ==> Settled(y))
  }

  predicate ReplicaAdvances(x: StatefulSet, y: StatefulSet) {
    && y.template == x.template
    && y.terminating == x.terminating
    && (if x.terminating then y.ready ==> x.ready else x.ready ==> y.ready)
  }

  predicate Advances(id: Identity, c: Cluster, d: Cluster)
    requires id.main in c.sets
  {
    && d == c.(sets := d.sets)
    && id.main in d.sets && Rolling(id, d.sets[id.main]) && MainAdvances(c.sets[id.main], d.sets[id.main])
    && (id.Replica() in d.sets ==>
          && id.Replica() in c.sets
          && Steady(d.sets[id.Replica()])
          && ReplicaAdvances(c.sets[id.Replica()], d.sets[id.Replica()]))
    && (id.Replica() in c.sets && !c.sets[id.Replica()].terminating ==> id.Replica() in d.sets)
  }

  lemma MainEventAdvances(id: Identity, c: Cluster, e: Event)
    requires id.main in c.sets && Rolling(id, c.sets[id.main])
    requires !e.Edit? && !(e.PodFailure? && e.name == id.main)
    ensures var d := Happen(c, e);
            id.main in d.sets && Rolling(id, d.sets[id.main]) && MainAdvances(c.sets[id.main], d.sets[id.main])
  {
  }

  lemma ReplicaEventAdvances(id: Identity, c: Cluster, e: Event)
    requires id.Replica() in c.sets ==> Steady(c.sets[id.Replica()])
    requires !e.Edit? && !(e.PodFailure? && e.name == id.Replica())
    ensures var d := Happen(c, e);
            && (id.Replica() in d.sets ==>
                  && id.Replica() in c.sets
                  && Steady(d.sets[id.Replica()])
                  && ReplicaAdvances(c.sets[id.Replica()], d.sets[id.Replica()]))
            && (id.Replica() in c.sets && !c.sets[id.Replica()].terminating ==> id.Replica() in d.sets)
  {
  }

  lemma EventAdvances(p: Platform, id: Identity, s: System, e: Event)
    requires Reached(id, s.c) && Admissible(p, id, s, World(e)) && !e.Edit?
    ensures Advances(id, s.c, Happen(s.c, e))
    ensures var x, y := s.c.sets[id.main], Happen(s.c, e).sets[id.main];
            s.at.CertGeneration? && s.at.finished && x.current == x.update ==> y.current == y.update
  {
    MainEventAdvances(id, s.c, e);
    ReplicaEventAdvances(id, s.c, e);
  }

  lemma AdvanceKeepsSafe(p: Platform, id: Identity, c: Cluster, d: Cluster, k: Option<Stage>, inst: Instance,
                         t: Template)
    requires id.main in c.sets && Advances(id, c, d) && Safe(p, id, c, k, inst, t)
    ensures Safe(p, id, d, k, inst, t)
  {
  }

  lemma AdvanceKeepsBears(p: Platform, id: Identity, s: System, d: Cluster, inst: Instance)
    requires id.main in s.c.sets && Advances(id, s.c, d) && Bears(p, id, s, inst)
    ensures Bears(p, id, System(d, s.at), inst)
  {
    var c, k, t := s.c, s.c.checkpoint, s.c.sets[id.main].template;
    if !Committed(s) {
      AdvanceKeepsSafe(p, id, c, d, k, inst, t);
    }
    if !s.at.Rest? && MayBuild(p, s.at, k, t) {
      AdvanceKeepsSafe(p, id, c, d, k, inst, Target(p, s.at.inst, t));
    }
    if !s.at.Rest? && MayShutDown(p, s.at, k, t) {
      AdvanceKeepsSafe(p, id, c, d, Some(MainShuttingDown), inst, Target(p, s.at.inst, t));
    }
  }

  lemma AdvanceKeepsInv(p: Platform, id: Identity, s: System, d: Cluster)
    requires Inv(p, id, s) && Advances(id, s.c, d)
    requires var x, y := s.c.sets[id.main], d.sets[id.main];
             s.at.CertGeneration? && s.at.finished && x.current == x.update ==> y.current == y.update
    ensures Inv(p, id, System(d, s.at))
  {
    AdvanceKeepsBears(p, id, s, d, s.c.teamcity.value);
  }

  lemma EditKeepsInv(p: Platform, id: Identity, s: System, e: Event)
    requires e.Edit?
    requires Inv(p, id, s) && Admissible(p, id, s, World(e))
    ensures Inv(p, id, Step(p, s, World(e)))
  {
    var t := Step(p, s, World(e));
    assert t.c == s.c.(teamcity := Some(e.inst));
    assert Bears(p, id, t, e.inst);
  }

  // ---- The operator keeps the invariant, call by call ----

  lemma RestKeepsInv(p: Platform, id: Identity, s: System, ok: bool)
    requires WriteSettles(p)
    requires s.at.Rest?
    requires Inv(p, id, s) && Admissible(p, id, s, Op(ok))
    ensures Inv(p, id, Step(p, s, Op(ok)))
  {
    assert |id.Replica()| > |id.main|;
  }

  lemma ReadOngoingKeepsInv(p: Platform, id: Identity, s: System, ok: bool)
    requires WriteSettles(p)
    requires s.at.ReadOngoing? || s.at.ReadStage?
    requires Inv(p, id, s) && Admissible(p, id, s, Op(ok))
    ensures Inv(p, id, CallDetection(p, s, ok))
  {
    assert |id.Replica()| > |id.main|;
  }

  lemma DetectKeepsInv(p: Platform, id: Identity, s: System, ok: bool)
    requires WriteSettles(p)
    requires s.at.Detect?
    requires Inv(p, id, s) && Admissible(p, id, s, Op(ok))
    ensures Inv(p, id, CallDetection(p, s, ok))
  {
    assert |id.Replica()| > |id.main|;
  }

  lemma ReplicaReadKeepsInv(p: Platform, id: Identity, s: System, ok: bool)
    requires WriteSettles(p)
    requires s.at.ReplicaReadMain? || s.at.ReplicaPoll? || s.at.ReplicaLookup?
    requires Inv(p, id, s) && Admissible(p, id, s, Op(ok))
    ensures Inv(p, id, CallHandler(p, s, ok))
  {
    assert |id.Replica()| > |id.main|;
  }

  lemma ReplicaDeleteKeepsInv(p: Platform, id: Identity, s: System, ok: bool)
    requires WriteSettles(p)
    requires s.at.ReplicaDelete?
    requires Inv(p, id, s) && Admissible(p, id, s, Op(ok))
    ensures Inv(p, id, CallHandler(p, s, ok))
  {
    assert |id.Replica()| > |id.main|;
  }

  lemma ReplicaMakeKeepsInv(p: Platform, id: Identity, s: System, ok: bool)
    requires WriteSettles(p)
    requires s.at.ReplicaMake?
    requires Inv(p, id, s) && Admissible(p, id, s, Op(ok))
    ensures Inv(p, id, CallHandler(p, s, ok))
  {
    assert |id.Replica()| > |id.main|;
  }

  lemma CertKeepsInv(p: Platform, id: Identity, s: System, ok: bool)
    requires WriteSettles(p)
    requires s.at.CertRevision? || s.at.CertGeneration?
    requires Inv(p, id, s) && Admissible(p, id, s, Op(ok))
    ensures Inv(p, id, CallHandler(p, s, ok))
  {
    assert |id.Replica()| > |id.main|;
  }

  lemma PersistKeepsInv(p: Platform, id: Identity, s: System, ok: bool)
    requires WriteSettles(p)
    requires s.at.Persist? || s.at.PersistCreate?
    requires Inv(p, id, s) && Admissible(p, id, s, Op(ok))
    ensures Inv(p, id, CallPersist(p, s, ok))
  {
    assert |id.Replica()| > |id.main|;
  }

  lemma PersistUpdateKeepsInv(p: Platform, id: Identity, s: System, ok: bool)
    requires WriteSettles(p)
    requires s.at.PersistUpdate?
    requires Inv(p, id, s) && Admissible(p, id, s, Op(ok))
    ensures Inv(p, id, CallPersist(p, s, ok))
  {
    assert |id.Replica()| > |id.main|;
  }

  lemma DropKeepsInv(p: Platform, id: Identity, s: System, ok: bool)
    requires WriteSettles(p)
    requires s.at.DropRead? || s.at.DropDelete?
    requires Inv(p, id, s) && Admissible(p, id, s, Op(ok))
    ensures Inv(p, id, CallHandler(p, s, ok))
  {
    assert |id.Replica()| > |id.main|;
  }

  lemma WriteKeepsInv(p: Platform, id: Identity, s: System, ok: bool)
    requires WriteSettles(p)
    requires s.at.MainWrite?
    requires Inv(p, id, s) && Admissible(p, id, s, Op(ok))
    ensures Inv(p, id, CallMain(p, s, ok))
  {
    assert |id.Replica()| > |id.main|;
  }

  lemma HookKeepsInv(p: Platform, id: Identity, s: System, ok: bool)
    requires WriteSettles(p)
    requires s.at.Support? || s.at.MainHook?
    requires Inv(p, id, s) && Admissible(p, id, s, Op(ok))
    ensures Inv(p, id, CallMain(p, s, ok))
  {
    assert |id.Replica()| > |id.main|;
  }

  lemma ObsoleteKeepsInv(p: Platform, id: Identity, s: System, ok: bool)
    requires WriteSettles(p)
    requires s.at.Obsolete?
    requires Inv(p, id, s) && Admissible(p, id, s, Op(ok))
    ensures Inv(p, id, CallGate(p, s, ok))
  {
    assert |id.Replica()| > |id.main|;
  }

  lemma LastCheckKeepsInv(p: Platform, id: Identity, s: System, ok: bool)
    requires WriteSettles(p)
    requires s.at.LastCheck?
    requires Inv(p, id, s) && Admissible(p, id, s, Op(ok))
    ensures Inv(p, id, CallNode(p, s, ok))
  {
    assert |id.Replica()| > |id.main|;
  }

  lemma PruneKeepsInv(p: Platform, id: Identity, s: System, ok: bool)
    requires WriteSettles(p)
    requires s.at.Prune?
    requires Inv(p, id, s) && Admissible(p, id, s, Op(ok))
    ensures Inv(p, id, CallGate(p, s, ok))
  {
    var t := CallGate(p, s, ok);
    var x := s.c.sets[id.main];
    assert t.c.sets[id.main] == x;
    assert Advances(id, s.c, t.c);
    AdvanceKeepsSafe(p, id, s.c, t.c, s.c.checkpoint, s.c.teamcity.value, x.template);
  }

  lemma NoOtherPoint(p: Platform, id: Identity, s: System)
    requires Inv(p, id, s)
    ensures !InFinalizer(s.at) && !s.at.MainRemove? && !s.at.MainRecheck?
    ensures InGate(s.at) ==> s.at.Obsolete? || s.at.Prune?
    ensures !s.at.NodeHook? && !s.at.NodeRemove? && !s.at.NodeRecheck? && !s.at.NodeWrite?
  {
  }

  lemma HandlerKeepsInv(p: Platform, id: Identity, s: System, ok: bool)
    requires WriteSettles(p)
    requires InHandler(s.at)
    requires Inv(p, id, s) && Admissible(p, id, s, Op(ok))
    ensures Inv(p, id, CallHandler(p, s, ok))
  {
    if s.at.ReplicaReadMain? || s.at.ReplicaPoll? || s.at.ReplicaLookup? {
      ReplicaReadKeepsInv(p, id, s, ok);
    } else if s.at.ReplicaDelete? {
      ReplicaDeleteKeepsInv(p, id, s, ok);
    } else if s.at.ReplicaMake? {
      ReplicaMakeKeepsInv(p, id, s, ok);
    } else if s.at.CertRevision? || s.at.CertGeneration? {
      CertKeepsInv(p, id, s, ok);
    } else {
      DropKeepsInv(p, id, s, ok);
    }
  }

  lemma UpgradeKeepsInv(p: Platform, id: Identity, s: System, ok: bool)
    requires WriteSettles(p)
    requires s.at.Rest? || InDetection(s.at) || InPersist(s.at)
    requires Inv(p, id, s) && Admissible(p, id, s, Op(ok))
    ensures Inv(p, id, Step(p, s, Op(ok)))
  {
    CallByGroup(p, s, ok);
    if s.at.Rest? {
      RestKeepsInv(p, id, s, ok);
    } else if s.at.Detect? {
      DetectKeepsInv(p, id, s, ok);
    } else if InDetection(s.at) {
      ReadOngoingKeepsInv(p, id, s, ok);
    } else if s.at.PersistUpdate? {
      PersistUpdateKeepsInv(p, id, s, ok);
    } else {
      PersistKeepsInv(p, id, s, ok);
    }
  }

  lemma BuilderKeepsInv(p: Platform, id: Identity, s: System, ok: bool)
    requires WriteSettles(p)
    requires InMain(s.at) || InGate(s.at) || s.at.LastCheck?
    requires Inv(p, id, s) && Admissible(p, id, s, Op(ok))
    ensures Inv(p, id, Step(p, s, Op(ok)))
  {
    NoOtherPoint(p, id, s);
    CallByGroup(p, s, ok);
    if s.at.MainWrite? {
      WriteKeepsInv(p, id, s, ok);
    } else if s.at.Support? || s.at.MainHook? {
      HookKeepsInv(p, id, s, ok);
    } else if s.at.Prune? {
      PruneKeepsInv(p, id, s, ok);
    } else if s.at.LastCheck? {
      LastCheckKeepsInv(p, id, s, ok);
    } else {
      ObsoleteKeepsInv(p, id, s, ok);
    }
  }

  lemma StepKeepsInv(p: Platform, id: Identity, s: System, a: Act)
    requires WriteSettles(p)
    requires Inv(p, id, s) && Admissible(p, id, s, a)
    ensures Inv(p, id, Step(p, s, a))
  {
    match a
    case Crash =>
    case World(e) =>
      if e.Edit? {
        EditKeepsInv(p, id, s, e);
      } else {
        EventAdvances(p, id, s, e);
        AdvanceKeepsInv(p, id, s, Happen(s.c, e));
      }
    case Op(ok) =>
      NoOtherPoint(p, id, s);
      CallByGroup(p, s, ok);
      if InHandler(s.at) {
        HandlerKeepsInv(p, id, s, ok);
      } else if s.at.Rest? || InDetection(s.at) || InPersist(s.at) {
        UpgradeKeepsInv(p, id, s, ok);
      } else {
        BuilderKeepsInv(p, id, s, ok);
      }
  }

  // ---- Theorems over runs ----

  lemma {:induction false} InvAlong(p: Platform, id: Identity, s: System, acts: seq<Act>, i: nat)
    requires WriteSettles(p)
    requires Inv(p, id, s) && AdmissibleRun(p, id, s, acts) && i <= |acts|
    ensures Inv(p, id, Trace(p, s, acts)[i])
  {
    if i > 0 {
      InvAlong(p, id, s, acts, i - 1);
      StepKeepsInv(p, id, Trace(p, s, acts)[i - 1], acts[i - 1]);
    }
  }

  /** Where an instance may start: the main node is settled and no upgrade is under way. */
  predicate AtRest(p: Platform, id: Identity, s: System) {
    && s.at.Rest?
    && s.c.checkpoint.None?
    && Reached(id, s.c)
    && Safe(p, id, s.c, None, s.c.teamcity.value, s.c.sets[id.main].template)
  }

  lemma InvServes(p: Platform, id: Identity, s: System)
    requires Inv(p, id, s)
    ensures Settled(s.c.sets[id.main]) || ReplicaUp(id, s.c)
    ensures Serving(id, s.c)
  {
  }

  lemma RunKeepsInv(p: Platform, id: Identity, s: System, acts: seq<Act>, i: nat)
    requires WriteSettles(p)
    requires AtRest(p, id, s) && AdmissibleRun(p, id, s, acts) && i <= |acts|
    ensures Inv(p, id, Trace(p, s, acts)[i])
  {
    assert Inv(p, id, s);
    InvAlong(p, id, s, acts, i);
  }

  /** In every state of every admissible run somebody serves. */
  lemma AlwaysServing(p: Platform, id: Identity, s: System, acts: seq<Act>)
    requires WriteSettles(p)
    requires AtRest(p, id, s) && AdmissibleRun(p, id, s, acts)
    ensures forall i | 0 <= i <= |acts| :: Serving(id, Trace(p, s, acts)[i].c)
  {
    forall i | 0 <= i <= |acts| ensures Serving(id, Trace(p, s, acts)[i].c) {
      RunKeepsInv(p, id, s, acts, i);
      InvServes(p, id, Trace(p, s, acts)[i]);
    }
  }

  lemma InvCouples(p: Platform, id: Identity, s: System)
    requires Inv(p, id, s)
    ensures s.c.checkpoint in {Some(ReplicaReady), Some(MainShuttingDown)} ==> ReplicaUp(id, s.c)
    ensures s.c.checkpoint in {Some(UpdateFinished), None} ==> ReplicaLeaving(id, s.c)
    ensures s.c.checkpoint in {Some(MainReady), Some(UpdateFinished), None} ==> Settled(s.c.sets[id.main])
  {
  }

  /** At the two stages that restart the main node the replica answers; it is gone or going at
      UpdateFinished and without a checkpoint, wherever the operator was restarted in between. */
  lemma ReplicaCoupledToStage(p: Platform, id: Identity, s: System, acts: seq<Act>, i: nat)
    requires WriteSettles(p)
    requires AtRest(p, id, s) && AdmissibleRun(p, id, s, acts) && i <= |acts|
    ensures var c := Trace(p, s, acts)[i].c;
            && (c.checkpoint in {Some(ReplicaReady), Some(MainShuttingDown)} ==> ReplicaUp(id, c))
            && (c.checkpoint in {Some(UpdateFinished), None} ==> ReplicaLeaving(id, c))
  {
    RunKeepsInv(p, id, s, acts, i);
    InvCouples(p, id, Trace(p, s, acts)[i]);
  }

  /** Whenever the main node is not rolled out, the replica answers, and the upgrade has a
      checkpoint that is not past MainShuttingDown. */
  lemma MainRollsOnlyBehindReplica(p: Platform, id: Identity, s: System, acts: seq<Act>, i: nat)
    requires WriteSettles(p)
    requires AtRest(p, id, s) && AdmissibleRun(p, id, s, acts) && i <= |acts|
    requires id.main in Trace(p, s, acts)[i].c.sets && !Settled(Trace(p, s, acts)[i].c.sets[id.main])
    ensures var c := Trace(p, s, acts)[i].c;
            ReplicaUp(id, c) && c.checkpoint.Some? && Rank(c.checkpoint.value) <= Rank(MainShuttingDown)
  {
    var t := Trace(p, s, acts)[i];
    RunKeepsInv(p, id, s, acts, i);
    InvServes(p, id, t);
    InvCouples(p, id, t);
  }
}
