/** Where an upgrade of any number of nodes can be while its spec stays and its calls succeed. */
module Course {
  import opened PodTree
  import opened PodTemplate
  import opened Stages
  import opened Cluster
  import opened Protocol
  import opened StageProtocol
  import opened Rollouts

  predicate UpToDate(p: Platform, node: Node, c: Cluster)
    requires node.name in c.sets
  {
    p.write(node.desired, c.sets[node.name].template) == c.sets[node.name].template
  }

  /** The detector is quiet about what the writer makes of the node. */
  predicate DetectorRests(p: Platform, node: Node, c: Cluster)
    requires node.name in c.sets
  {
    !p.detect(node.desired, p.write(node.desired, c.sets[node.name].template))
  }

  /** A node that may be anywhere in a rollout, of any template but the one it is asked for. */
  predicate NodeFits(p: Platform, role: Role, node: Node, c: Cluster) {
    && node.name in c.sets
    && var x := c.sets[node.name];
    && x.role == role && x.serviceName == node.serviceName && Sane(x)
    && (UpToDate(p, node, c) || p.write(node.desired, x.template) !in {x.current, x.update})
    && DetectorRests(p, node, c)
  }

  predicate NodesFit(p: Platform, inst: Instance, c: Cluster) {
    && NodeFits(p, MainRole, inst.main, c)
    && forall i | 0 <= i < |inst.secondaries| :: NodeFits(p, SecondaryRole, inst.secondaries[i], c)
  }

  predicate AllUpToDate(p: Platform, inst: Instance, c: Cluster)
    requires NodesFit(p, inst, c)
  {
    UpToDate(p, inst.main, c) && forall i | 0 <= i < |inst.secondaries| :: UpToDate(p, inst.secondaries[i], c)
  }

  predicate NoStrangers(inst: Instance, c: Cluster) {
    && (forall n | n in c.sets && c.sets[n].role == SecondaryRole :: n in SecondaryNames(inst))
    && (ReplicaName(inst) in c.sets ==>
          var r := c.sets[ReplicaName(inst)]; r.role == ReplicaRole && (r.terminating || Tame(r)))
  }

  predicate Absent(inst: Instance, c: Cluster) {
    ReplicaName(inst) !in c.sets
  }

  predicate ReplicaGoes(inst: Instance, c: Cluster) {
    ReplicaName(inst) in c.sets ==> c.sets[ReplicaName(inst)].terminating
  }

  predicate ReplicaStays(inst: Instance, c: Cluster) {
    ReplicaName(inst) in c.sets ==> !c.sets[ReplicaName(inst)].terminating
  }

  /** A builder pass that nothing but the main node's own rollout can stop at its gate. */
  predicate Building(at: Point) {
    || InMain(at)
    || at.Obsolete? || at.Prune? || at.GateGeneration?
    || (at.GateRevision? && at.newest)
    || (at.GateOngoing? && at.settled)
    || InNode(at)
  }

  /** A replica that is leaving when the upgrade makes its own would be waited for in vain. */
  predicate ReplicaFits(p: Platform, inst: Instance, s: System)
    requires NodesFit(p, inst, s.c)
  {
    match s.c.checkpoint
    case None =>
      && ReplicaGoes(inst, s.c)
      && (inst.secondaries == [] && !UpToDate(p, inst.main, s.c) && !Building(s.at) ==> Absent(inst, s.c))
    case Some(UpdateInitiated) => ReplicaStays(inst, s.c)
    case Some(ReplicaCreated) => ReplicaStays(inst, s.c)
    case Some(ReplicaStarting) => !Absent(inst, s.c) && ReplicaStays(inst, s.c)
    case Some(UpdateFinished) => ReplicaGoes(inst, s.c)
    case _ => true
  }

  predicate PointFits(p: Platform, inst: Instance, s: System)
    requires WellFormed(s.at) && NodesFit(p, inst, s.c)
  {
    var c, k, x := s.c, s.c.checkpoint, s.c.sets[inst.main.name];
    && (!s.at.Rest? ==> s.at.inst == inst)
    && !InFinalizer(s.at)
    && match s.at
       case Detect(_, ongoing, _) => ongoing == k.Some?
       case ReadStage(_) => k.None? ==> !AllUpToDate(p, inst, c)
       case Persist(_, d) =>
         && (k.None? ==> !AllUpToDate(p, inst, c))
         && (d == ReplicaStarting ==> !Absent(inst, c) && ReplicaStays(inst, c))
         && (d == UpdateFinished ==> ReplicaGoes(inst, c))
         && (d == MainReady ==> IsNewestGeneration(x))
       case PersistCreate(_, _) => !AllUpToDate(p, inst, c)
       case PersistUpdate(_, d) =>
         && (d == ReplicaStarting ==> !Absent(inst, c) && ReplicaStays(inst, c))
         && (d == UpdateFinished ==> ReplicaGoes(inst, c))
         && (d == MainReady ==> IsNewestGeneration(x))
       case Obsolete(_) => UpToDate(p, inst.main, c)
       case GateGeneration(_) => UpToDate(p, inst.main, c)
       case GateRevision(_, newest) =>
         UpToDate(p, inst.main, c) && (newest ==> x.update == x.template && IsNewestGeneration(x))
       case GateOngoing(_, settled) => UpToDate(p, inst.main, c) && (settled ==> Work(x) == 0)
       case NodeHook(_, j) => k.None? && PastNode(p, inst, c, j)
       case NodeWrite(_, j) => k.None? && PastNode(p, inst, c, j)
       case LastCheck(_) => UpToDate(p, inst.main, c) && (k.None? ==> AllUpToDate(p, inst, c))
       case MainRemove(_) => false
       case MainRecheck(_) => false
       case Prune(_, _) => false
       case NodeRemove(_, _) => false
       case NodeRecheck(_, _) => false
       case _ => true
  }

  /** The main node and the first `j` secondaries have been brought to the spec. */
  predicate PastNode(p: Platform, inst: Instance, c: Cluster, j: nat)
    requires NodesFit(p, inst, c)
  {
    && UpToDate(p, inst.main, c) && Work(c.sets[inst.main.name]) == 0
    && forall i | 0 <= i < j && i < |inst.secondaries| :: UpToDate(p, inst.secondaries[i], c)
  }

  predicate OnCourse(p: Platform, inst: Instance, s: System) {
    && WellFormed(s.at) && Coupled(s)
    && s.c.teamcity == Some(inst) && !inst.deleting && DistinctNames(inst)
    && NodesFit(p, inst, s.c) && NoStrangers(inst, s.c)
    && ReplicaFits(p, inst, s) && PointFits(p, inst, s)
  }

  /** Every call succeeds, nothing fails by itself, nobody edits, and the operator stays up. */
  predicate Fair(a: Act) {
    match a
    case Op(ok) => ok
    case Crash => false
    case World(e) => !e.Edit? && !e.PodFailure?
  }

  predicate AllFair(acts: seq<Act>) {
    forall i | 0 <= i < |acts| :: Fair(acts[i])
  }

  // ---- The cluster keeps the course ----

  /** What a step of the cluster does to one node. */
  predicate NodeMoves(x: StatefulSet, y: StatefulSet) {
    && Sane(y) && y.role == x.role && y.serviceName == x.serviceName && y.template == x.template
    && y.current in {x.current, x.update, x.template} && y.update in {x.update, x.template}
    && (IsNewestGeneration(x) ==> IsNewestGeneration(y))
    && Work(y) <= Work(x)
  }

  lemma EventMovesNode(c: Cluster, n: string, e: Event)
    requires n in c.sets && Sane(c.sets[n]) && !e.Edit? && !e.PodFailure?
    ensures n in Happen(c, e).sets && NodeMoves(c.sets[n], Happen(c, e).sets[n])
  {
    EventsHelp(c, n, e);
    EventsStaySane(c, n, e);
  }

  predicate ClusterMoves(p: Platform, inst: Instance, c: Cluster, d: Cluster)
    requires NodesFit(p, inst, c)
  {
    && d.teamcity == c.teamcity && d.checkpoint == c.checkpoint
    && inst.main.name in d.sets && NodeMoves(c.sets[inst.main.name], d.sets[inst.main.name])
    && (forall i | 0 <= i < |inst.secondaries| ::
          var n := inst.secondaries[i].name; n in d.sets && NodeMoves(c.sets[n], d.sets[n]))
    && NoStrangers(inst, d)
    && (Absent(inst, c) ==> Absent(inst, d))
    && (ReplicaGoes(inst, c) ==> ReplicaGoes(inst, d))
    && (ReplicaStays(inst, c) ==> ReplicaStays(inst, d) && (Absent(inst, d) ==> Absent(inst, c)))
  }

  lemma EventMovesStrangers(inst: Instance, c: Cluster, e: Event)
    requires NoStrangers(inst, c) && !e.Edit? && !e.PodFailure?
    ensures var d := Happen(c, e);
            && NoStrangers(inst, d)
            && (Absent(inst, c) ==> Absent(inst, d))
            && (ReplicaGoes(inst, c) ==> ReplicaGoes(inst, d))
            && (ReplicaStays(inst, c) ==> ReplicaStays(inst, d) && (Absent(inst, d) ==> Absent(inst, c)))
  {
    var r := ReplicaName(inst);
    if r in c.sets && !c.sets[r].terminating {
      EventsHelp(c, r, e);
    }
  }

  lemma EventMoves(p: Platform, inst: Instance, c: Cluster, e: Event)
    requires NodesFit(p, inst, c) && NoStrangers(inst, c) && !e.Edit? && !e.PodFailure?
    ensures ClusterMoves(p, inst, c, Happen(c, e))
  {
    EventMovesNode(c, inst.main.name, e);
    forall i | 0 <= i < |inst.secondaries|
      ensures var n := inst.secondaries[i].name; n in Happen(c, e).sets && NodeMoves(c.sets[n], Happen(c, e).sets[n])
    {
      EventMovesNode(c, inst.secondaries[i].name, e);
    }
    EventMovesStrangers(inst, c, e);
  }

  lemma MovingFits(p: Platform, inst: Instance, c: Cluster, d: Cluster)
    requires NodesFit(p, inst, c) && ClusterMoves(p, inst, c, d)
    ensures NodesFit(p, inst, d)
    ensures UpToDate(p, inst.main, d) <==> UpToDate(p, inst.main, c)
    ensures forall i | 0 <= i < |inst.secondaries| ::
              UpToDate(p, inst.secondaries[i], d) <==> UpToDate(p, inst.secondaries[i], c)
  {
    forall i | 0 <= i < |inst.secondaries|
      ensures NodeFits(p, SecondaryRole, inst.secondaries[i], d)
      ensures UpToDate(p, inst.secondaries[i], d) <==> UpToDate(p, inst.secondaries[i], c)
    {
      var n := inst.secondaries[i].name;
      assert NodeFits(p, SecondaryRole, inst.secondaries[i], c);
      assert NodeMoves(c.sets[n], d.sets[n]);
    }
  }

  lemma EventKeepsCourse(p: Platform, inst: Instance, s: System, e: Event)
    requires OnCourse(p, inst, s) && !e.Edit? && !e.PodFailure?
    ensures OnCourse(p, inst, System(Happen(s.c, e), s.at))
  {
    var d := Happen(s.c, e);
    EventMoves(p, inst, s.c, e);
    MovingFits(p, inst, s.c, d);
    assert AllUpToDate(p, inst, d) <==> AllUpToDate(p, inst, s.c);
    MovedPointFits(p, inst, s, d);
  }

  lemma MovedPointFits(p: Platform, inst: Instance, s: System, d: Cluster)
    requires WellFormed(s.at) && NodesFit(p, inst, s.c) && NodesFit(p, inst, d) && ClusterMoves(p, inst, s.c, d)
    requires PointFits(p, inst, s) && (AllUpToDate(p, inst, d) <==> AllUpToDate(p, inst, s.c))
    requires UpToDate(p, inst.main, d) <==> UpToDate(p, inst.main, s.c)
    requires forall i | 0 <= i < |inst.secondaries| ::
               UpToDate(p, inst.secondaries[i], d) <==> UpToDate(p, inst.secondaries[i], s.c)
    ensures PointFits(p, inst, System(d, s.at))
  {
  }

  // ---- The operator keeps the course ----

  predicate SameNodes(inst: Instance, c: Cluster, d: Cluster) {
    && (inst.main.name in c.sets ==> inst.main.name in d.sets && d.sets[inst.main.name] == c.sets[inst.main.name])
    && forall i | 0 <= i < |inst.secondaries| ::
         var n := inst.secondaries[i].name; n in c.sets ==> n in d.sets && d.sets[n] == c.sets[n]
  }

  lemma SameNodesFit(p: Platform, inst: Instance, c: Cluster, d: Cluster)
    requires NodesFit(p, inst, c) && SameNodes(inst, c, d)
    ensures NodesFit(p, inst, d)
    ensures UpToDate(p, inst.main, d) <==> UpToDate(p, inst.main, c)
    ensures forall i | 0 <= i < |inst.secondaries| ::
              UpToDate(p, inst.secondaries[i], d) <==> UpToDate(p, inst.secondaries[i], c)
    ensures AllUpToDate(p, inst, d) <==> AllUpToDate(p, inst, c)
  {
    forall i | 0 <= i < |inst.secondaries|
      ensures NodeFits(p, SecondaryRole, inst.secondaries[i], d)
      ensures UpToDate(p, inst.secondaries[i], d) <==> UpToDate(p, inst.secondaries[i], c)
    {
      assert NodeFits(p, SecondaryRole, inst.secondaries[i], c);
    }
  }

  lemma NodeInFleet(p: Platform, inst: Instance, c: Cluster, i: nat)
    requires NodesFit(p, inst, c) && i < |AllNodes(inst)|
    ensures var node := AllNodes(inst)[i];
            && node.name in c.sets && c.sets[node.name].serviceName == node.serviceName
            && DetectorRests(p, node, c)
            && (AllUpToDate(p, inst, c) ==> UpToDate(p, node, c))
            && (NeedsRestart(p, node, c.sets[node.name]) ==> !AllUpToDate(p, inst, c))
  {
    var node := AllNodes(inst)[i];
    if i < |inst.secondaries| {
      assert node == inst.secondaries[i] && NodeFits(p, SecondaryRole, inst.secondaries[i], c);
    } else {
      assert node == inst.main;
    }
  }

  lemma RestCallKeepsCourse(p: Platform, inst: Instance, s: System)
    requires OnCourse(p, inst, s) && s.at.Rest?
    ensures OnCourse(p, inst, Call(p, s, true))
  {
  }

  lemma DetectKeepsCourse(p: Platform, inst: Instance, s: System)
    requires OnCourse(p, inst, s) && s.at.Detect?
    ensures OnCourse(p, inst, CallDetection(p, s, true))
  {
    NodeInFleet(p, inst, s.c, s.at.i);
    var t := CallDetection(p, s, true);
    assert t.c == s.c && (t.at.Detect? || t.at.ReadStage? || t.at.Support?);
  }

  lemma DetectionCallKeepsCourse(p: Platform, inst: Instance, s: System)
    requires OnCourse(p, inst, s) && InDetection(s.at)
    ensures OnCourse(p, inst, CallDetection(p, s, true))
  {
    if s.at.Detect? {
      DetectKeepsCourse(p, inst, s);
    }
  }

  lemma PersistCallKeepsCourse(p: Platform, inst: Instance, s: System)
    requires OnCourse(p, inst, s) && InPersist(s.at)
    ensures OnCourse(p, inst, CallPersist(p, s, true))
  {
    var t := CallPersist(p, s, true);
    assert t.c.sets == s.c.sets;
    SameNodesFit(p, inst, s.c, t.c);
  }

  lemma ReplicaMakeKeepsCourse(p: Platform, inst: Instance, s: System)
    requires OnCourse(p, inst, s) && s.at.ReplicaMake?
    ensures OnCourse(p, inst, CallHandler(p, s, true))
  {
    var t := CallHandler(p, s, true);
    ReplicaNameIsNotMain(inst);
    assert SameNodes(inst, s.c, t.c);
    SameNodesFit(p, inst, s.c, t.c);
  }

  lemma ReplicaDeleteKeepsCourse(p: Platform, inst: Instance, s: System)
    requires OnCourse(p, inst, s) && s.at.ReplicaDelete?
    ensures OnCourse(p, inst, CallHandler(p, s, true))
  {
    var t := CallHandler(p, s, true);
    ReplicaNameIsNotMain(inst);
    assert SameNodes(inst, s.c, t.c);
    SameNodesFit(p, inst, s.c, t.c);
  }

  lemma DropKeepsCourse(p: Platform, inst: Instance, s: System)
    requires OnCourse(p, inst, s) && s.at.DropDelete?
    ensures OnCourse(p, inst, CallHandler(p, s, true))
  {
    var t := CallHandler(p, s, true);
    SameNodesFit(p, inst, s.c, t.c);
    assert t.at.Support? || t == System(s.c, Rest(Failed));
  }

  lemma LookKeepsCourse(p: Platform, inst: Instance, s: System)
    requires OnCourse(p, inst, s) && InHandler(s.at)
    requires !s.at.ReplicaMake? && !s.at.ReplicaDelete? && !s.at.DropDelete?
    ensures OnCourse(p, inst, CallHandler(p, s, true))
  {
  }

  lemma HandlerCallKeepsCourse(p: Platform, inst: Instance, s: System)
    requires OnCourse(p, inst, s) && InHandler(s.at)
    ensures OnCourse(p, inst, CallHandler(p, s, true))
  {
    if s.at.ReplicaMake? {
      ReplicaMakeKeepsCourse(p, inst, s);
    } else if s.at.ReplicaDelete? {
      ReplicaDeleteKeepsCourse(p, inst, s);
    } else if s.at.DropDelete? {
      DropKeepsCourse(p, inst, s);
    } else {
      LookKeepsCourse(p, inst, s);
    }
  }

  lemma MainCallKeepsCourse(p: Platform, inst: Instance, s: System)
    requires WriteSettles(p)
    requires OnCourse(p, inst, s) && InMain(s.at)
    ensures OnCourse(p, inst, CallMain(p, s, true))
  {
    var t := CallMain(p, s, true);
    if s.at.MainWrite? {
      MainWriteFits(p, inst, s.c);
    } else {
      SameNodesFit(p, inst, s.c, t.c);
    }
  }

  /** Bringing the main node to the spec leaves the other nodes alone. */
  lemma MainWriteFits(p: Platform, inst: Instance, c: Cluster)
    requires WriteSettles(p) && NodesFit(p, inst, c) && NoStrangers(inst, c) && DistinctNames(inst)
    ensures Apply(p, c, MainRole, inst.main).Some?
    ensures var d := Apply(p, c, MainRole, inst.main).value;
            && NodesFit(p, inst, d) && NoStrangers(inst, d) && UpToDate(p, inst.main, d)
            && (forall i | 0 <= i < |inst.secondaries| ::
                d.sets[inst.secondaries[i].name] == c.sets[inst.secondaries[i].name])
            && d.checkpoint == c.checkpoint && d.teamcity == c.teamcity
            && (ReplicaName(inst) in d.sets <==> ReplicaName(inst) in c.sets)
            && (ReplicaName(inst) in c.sets ==> d.sets[ReplicaName(inst)] == c.sets[ReplicaName(inst)])
            && (UpToDate(p, inst.main, c) ==> d.sets == c.sets)
            && (!UpToDate(p, inst.main, c) ==> Work(d.sets[inst.main.name]) == 4)
  {
    ReplicaNameIsNotMain(inst);
    var x := c.sets[inst.main.name];
    StoreIsSane(x, p.write(inst.main.desired, x.template));
    var d := Apply(p, c, MainRole, inst.main).value;
    forall i | 0 <= i < |inst.secondaries|
      ensures d.sets[inst.secondaries[i].name] == c.sets[inst.secondaries[i].name]
      ensures NodeFits(p, SecondaryRole, inst.secondaries[i], d)
    {
      assert NodeFits(p, SecondaryRole, inst.secondaries[i], c);
    }
  }

  lemma ListingKeepsCourse(p: Platform, inst: Instance, s: System)
    requires OnCourse(p, inst, s) && s.at.Obsolete?
    ensures OnCourse(p, inst, CallGate(p, s, true))
  {
    assert ObsoleteNames(s.c, inst) == {};
  }

  lemma GateCallKeepsCourse(p: Platform, inst: Instance, s: System)
    requires OnCourse(p, inst, s) && InGate(s.at)
    ensures OnCourse(p, inst, CallGate(p, s, true))
  {
    if s.at.Obsolete? {
      ListingKeepsCourse(p, inst, s);
    } else {
      NoWorkIsSettled(s.c.sets[inst.main.name]);
      assert CallGate(p, s, true).c == s.c;
    }
  }

  lemma WriteOfSecondary(p: Platform, inst: Instance, c: Cluster, j: nat)
    requires WriteSettles(p) && NodesFit(p, inst, c) && DistinctNames(inst) && j < |inst.secondaries|
    ensures NodeAt(inst, j) == inst.secondaries[j]
    ensures Apply(p, c, SecondaryRole, inst.secondaries[j]).Some?
    ensures var node, d := inst.secondaries[j], Apply(p, c, SecondaryRole, inst.secondaries[j]).value;
            && OnlySecondary(inst, c, d, j) && node.name in c.sets && node.name in d.sets
            && d.sets[node.name] == Store(c.sets[node.name], p.write(node.desired, c.sets[node.name].template))
  {
    FoundByName(inst.secondaries, j);
    assert NodeFits(p, SecondaryRole, inst.secondaries[j], c);
  }

  lemma NodeWriteFits(p: Platform, inst: Instance, c: Cluster, j: nat)
    requires WriteSettles(p) && NodesFit(p, inst, c) && NoStrangers(inst, c) && DistinctNames(inst)
    requires j < |inst.secondaries|
    ensures Apply(p, c, SecondaryRole, inst.secondaries[j]).Some?
    ensures var d := Apply(p, c, SecondaryRole, inst.secondaries[j]).value;
            && NodesFit(p, inst, d) && NoStrangers(inst, d) && UpToDate(p, inst.secondaries[j], d)
            && OnlySecondary(inst, c, d, j)
            && (UpToDate(p, inst.secondaries[j], c) ==>
                d.sets[inst.secondaries[j].name] == c.sets[inst.secondaries[j].name])
            && (!UpToDate(p, inst.secondaries[j], c) ==> Work(d.sets[inst.secondaries[j].name]) == 4)
  {
    WriteOfSecondary(p, inst, c, j);
    var node := inst.secondaries[j];
    assert NodeFits(p, SecondaryRole, node, c);
    StoreIsSane(c.sets[node.name], p.write(node.desired, c.sets[node.name].template));
    OthersStillFit(p, inst, c, Apply(p, c, SecondaryRole, node).value, j);
  }

  /** Nothing but the secondary `j` differs. */
  predicate OnlySecondary(inst: Instance, c: Cluster, d: Cluster, j: nat)
    requires j < |inst.secondaries|
  {
    && d == c.(sets := d.sets, nextUid := d.nextUid)
    && forall n | n in c.sets.Keys + d.sets.Keys && n != inst.secondaries[j].name ::
         n in c.sets && n in d.sets && d.sets[n] == c.sets[n]
  }

  lemma OthersStillFit(p: Platform, inst: Instance, c: Cluster, d: Cluster, j: nat)
    requires NodesFit(p, inst, c) && NoStrangers(inst, c) && DistinctNames(inst)
    requires j < |inst.secondaries| && OnlySecondary(inst, c, d, j)
    requires NodeFits(p, SecondaryRole, inst.secondaries[j], d)
    ensures NodesFit(p, inst, d) && NoStrangers(inst, d)
  {
    assert inst.secondaries[j].name in SecondaryNames(inst);
    forall i | 0 <= i < |inst.secondaries| ensures NodeFits(p, SecondaryRole, inst.secondaries[i], d) {
      assert NodeFits(p, SecondaryRole, inst.secondaries[i], c);
    }
  }

  lemma NodeWriteKeepsPast(p: Platform, inst: Instance, s: System, d: Cluster)
    requires OnCourse(p, inst, s) && s.at.NodeWrite?
    requires NodesFit(p, inst, d) && UpToDate(p, inst.secondaries[s.at.j], d)
    requires OnlySecondary(inst, s.c, d, s.at.j)
    ensures PastNode(p, inst, d, s.at.j + 1)
    ensures s.at.j + 1 == |inst.secondaries| ==> AllUpToDate(p, inst, d)
  {
    forall i | 0 <= i <= s.at.j ensures UpToDate(p, inst.secondaries[i], d) {
      if i != s.at.j {
        assert UpToDate(p, inst.secondaries[i], s.c);
      }
    }
  }

  lemma WrittenOnCourse(p: Platform, inst: Instance, s: System, d: Cluster)
    requires OnCourse(p, inst, s) && s.at.NodeWrite?
    requires NodesFit(p, inst, d) && NoStrangers(inst, d) && OnlySecondary(inst, s.c, d, s.at.j)
    requires PastNode(p, inst, d, s.at.j + 1)
    requires s.at.j + 1 == |inst.secondaries| ==> AllUpToDate(p, inst, d)
    ensures OnCourse(p, inst, System(d, NextNode(inst, s.at.j)))
  {
  }

  lemma NodeWriteKeepsCourse(p: Platform, inst: Instance, s: System)
    requires WriteSettles(p)
    requires OnCourse(p, inst, s) && s.at.NodeWrite?
    ensures OnCourse(p, inst, CallNode(p, s, true))
  {
    var j := s.at.j;
    WriteOfSecondary(p, inst, s.c, j);
    NodeWriteFits(p, inst, s.c, j);
    var d := Apply(p, s.c, SecondaryRole, inst.secondaries[j]).value;
    NodeWriteKeepsPast(p, inst, s, d);
    WrittenOnCourse(p, inst, s, d);
  }

  lemma NodeHookKeepsCourse(p: Platform, inst: Instance, s: System)
    requires OnCourse(p, inst, s) && s.at.NodeHook?
    ensures OnCourse(p, inst, CallNode(p, s, true))
  {
    var j := s.at.j;
    FoundByName(inst.secondaries, j);
    assert NodeFits(p, SecondaryRole, inst.secondaries[j], s.c);
    assert CallNode(p, s, true) == System(s.c, NodeWrite(inst, j));
  }

  lemma NodeLookKeepsCourse(p: Platform, inst: Instance, s: System)
    requires OnCourse(p, inst, s) && InNode(s.at) && !s.at.NodeWrite?
    ensures OnCourse(p, inst, CallNode(p, s, true))
  {
    if s.at.NodeHook? {
      NodeHookKeepsCourse(p, inst, s);
    } else {
      assert s.at.LastCheck?;
      assert CallNode(p, s, true) == System(s.c, Rest(if s.c.checkpoint.Some? then Requeued else Finished));
    }
  }

  lemma StepKeepsCourse(p: Platform, inst: Instance, s: System, a: Act)
    requires WriteSettles(p)
    requires OnCourse(p, inst, s) && Fair(a)
    ensures OnCourse(p, inst, Step(p, s, a))
  {
    if a.World? {
      EventKeepsCourse(p, inst, s, a.event);
    } else {
      CallByGroup(p, s, true);
      if s.at.Rest? {
        RestCallKeepsCourse(p, inst, s);
      } else if InDetection(s.at) {
        DetectionCallKeepsCourse(p, inst, s);
      } else if InPersist(s.at) {
        PersistCallKeepsCourse(p, inst, s);
      } else if InHandler(s.at) {
        HandlerCallKeepsCourse(p, inst, s);
      } else if InMain(s.at) {
        MainCallKeepsCourse(p, inst, s);
      } else if InGate(s.at) {
        GateCallKeepsCourse(p, inst, s);
      } else if s.at.NodeWrite? {
        NodeWriteKeepsCourse(p, inst, s);
      } else {
        NodeLookKeepsCourse(p, inst, s);
      }
    }
  }

  lemma {:induction false} RunKeepsCourse(p: Platform, inst: Instance, s: System, acts: seq<Act>)
    requires WriteSettles(p)
    requires OnCourse(p, inst, s) && AllFair(acts)
    ensures OnCourse(p, inst, Run(p, s, acts))
    decreases |acts|
  {
    if acts != [] {
      StepKeepsCourse(p, inst, s, acts[0]);
      RunKeepsCourse(p, inst, Step(p, s, acts[0]), acts[1..]);
    }
  }
}
