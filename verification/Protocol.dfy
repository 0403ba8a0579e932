/** One pass of the operator, cut at its API calls. A program point names the call that comes next
    and holds the local variables that are still needed, among them the copy of the TeamCity object
    that the pass works from. */
module Protocol {
  import opened PodTree
  import opened PodTemplate
  import opened Stages
  import opened Cluster
  import opened Ordering

  datatype Outcome = Finished | Requeued | Failed | Blocked | Crashed

  datatype Point =
    | Rest(outcome: Outcome)
    // finalizeTeamCity
    | FinalOngoing(inst: Instance)
    | FinalRead(inst: Instance)
    | FinalDelete(inst: Instance, found: bool)
    | FinalRelease(inst: Instance)
    // performZeroDowntimeUpgradeOrRequeue
    | ReadOngoing(inst: Instance)
    | Detect(inst: Instance, ongoing: bool, i: nat)
    | ReadStage(inst: Instance)
    // the stage handlers
    | ReplicaReadMain(inst: Instance)
    | ReplicaMake(inst: Instance, template: Template)
    | ReplicaPoll(inst: Instance)
    | CertRevision(inst: Instance)
    | CertGeneration(inst: Instance, finished: bool)
    | ReplicaLookup(inst: Instance)
    | ReplicaDelete(inst: Instance)
    | DropRead(inst: Instance)
    | DropDelete(inst: Instance, found: bool)
    // DoCheckpointWithDesiredStage
    | Persist(inst: Instance, desired: Stage)
    | PersistCreate(inst: Instance, desired: Stage)
    | PersistUpdate(inst: Instance, desired: Stage)
    // the builder pass
    | Support(inst: Instance)
    | MainHook(inst: Instance)
    | MainRemove(inst: Instance)
    | MainRecheck(inst: Instance)
    | MainWrite(inst: Instance)
    | Obsolete(inst: Instance)
    | Prune(inst: Instance, rest: set<string>)
    | GateGeneration(inst: Instance)
    | GateRevision(inst: Instance, newest: bool)
    | GateOngoing(inst: Instance, settled: bool)
    | NodeHook(inst: Instance, j: nat)
    | NodeRemove(inst: Instance, j: nat)
    | NodeRecheck(inst: Instance, j: nat)
    | NodeWrite(inst: Instance, j: nat)
    | LastCheck(inst: Instance)

  /** The cluster together with the single reconcile worker. */
  datatype System = System(c: Cluster, at: Point)

  function InitialStage(inst: Instance): Stage {
    if |inst.secondaries| > 0 then ReplicaReady else UpdateInitiated
  }

  function Dispatch(inst: Instance, stage: Stage): Point {
    match stage
    case UpdateInitiated => Persist(inst, ReplicaCreated)
    case ReplicaCreated => ReplicaReadMain(inst)
    case ReplicaStarting => ReplicaPoll(inst)
    case ReplicaReady => Persist(inst, MainShuttingDown)
    case MainShuttingDown => CertRevision(inst)
    case MainReady => ReplicaLookup(inst)
    case UpdateFinished => DropRead(inst)
  }

  /** Only the handler of ReplicaReady, which asks for MainShuttingDown, lets the pass go on. */
  function AfterPersist(inst: Instance, desired: Stage): Point {
    if desired == MainShuttingDown then Support(inst) else Rest(Requeued)
  }

  function AfterDetect(inst: Instance, restart: bool, ongoing: bool): Point {
    if restart || ongoing then ReadStage(inst) else Support(inst)
  }

  predicate NeedsRestart(p: Platform, node: Node, x: StatefulSet) {
    p.detect(node.desired, x.template) || (node.serviceName != "" && node.serviceName != x.serviceName)
  }

  predicate Drifted(node: Node, x: StatefulSet) {
    x.serviceName != node.serviceName
  }

  /** The first node of that name: the builder looks the object's node up by name. */
  function NodeNamed(nodes: seq<Node>, name: string): (node: Option<Node>)
    ensures node.Some? ==> node.value in nodes && node.value.name == name
    ensures node.None? <==> forall n | n in nodes :: n.name != name
  {
    if nodes == [] then None
    else if nodes[0].name == name then Some(nodes[0])
    else NodeNamed(nodes[1..], name)
  }

  lemma {:induction false} FoundByName(nodes: seq<Node>, j: nat)
    requires j < |nodes|
    requires forall i | 0 <= i < j :: nodes[i].name != nodes[j].name
    ensures NodeNamed(nodes, nodes[j].name) == Some(nodes[j])
    decreases j
  {
    if j > 0 {
      FoundByName(nodes[1..], j - 1);
    }
  }

  function NodeAt(inst: Instance, j: nat): (node: Node)
    requires j < |inst.secondaries|
    ensures node.name == inst.secondaries[j].name && node in inst.secondaries
  {
    NodeNamed(inst.secondaries, inst.secondaries[j].name).value
  }

  /** `CreateOrUpdate` of the StatefulSet of `node`, with the builder's `Update` as its mutation.
      `None` is the API server's refusal to change an immutable field. */
  function Apply(p: Platform, c: Cluster, role: Role, node: Node): Option<Cluster> {
    if node.name !in c.sets then
      Some(c.(sets := c.sets[node.name := NewSet(role, c.nextUid, node.serviceName, p.write(node.desired, p.blank))],
              nextUid := c.nextUid + 1))
    else
      var x := c.sets[node.name];
      if node.serviceName != "" && node.serviceName != x.serviceName then None
      else Some(c.(sets := c.sets[node.name := Store(x, p.write(node.desired, x.template))]))
  }

  function ApplyReplica(p: Platform, c: Cluster, inst: Instance, template: Template): Cluster {
    var name := ReplicaName(inst);
    if name !in c.sets then
      c.(sets := c.sets[name := NewSet(ReplicaRole, c.nextUid, "", p.replica(inst, template))],
         nextUid := c.nextUid + 1)
    else
      c.(sets := c.sets[name := Store(c.sets[name], p.replica(inst, template))])
  }

  function Remove(c: Cluster, name: string): Cluster {
    if name in c.sets then c.(sets := c.sets[name := MarkTerminating(c.sets[name])]) else c
  }

  function ObsoleteNames(c: Cluster, inst: Instance): set<string> {
    set n | n in c.sets && c.sets[n].role == SecondaryRole && n !in SecondaryNames(inst)
  }

  function AfterPrune(inst: Instance): Point {
    if |inst.secondaries| > 0 then GateGeneration(inst) else LastCheck(inst)
  }

  function NextNode(inst: Instance, j: nat): Point {
    if j + 1 < |inst.secondaries| then NodeHook(inst, j + 1) else LastCheck(inst)
  }

  /** Where the pass stands before secondary number `j`. */
  function NodePoint(inst: Instance, j: nat): (at: Point)
    ensures WellFormed(at)
  {
    if j < |inst.secondaries| then NodeHook(inst, j) else LastCheck(inst)
  }

  /** Every index that a program point holds is inside its list. */
  predicate WellFormed(at: Point) {
    match at
    case Detect(inst, _, i) => i < |AllNodes(inst)|
    case Prune(_, rest) => rest != {}
    case GateGeneration(inst) => |inst.secondaries| > 0
    case GateRevision(inst, _) => |inst.secondaries| > 0
    case GateOngoing(inst, _) => |inst.secondaries| > 0
    case NodeHook(inst, j) => j < |inst.secondaries|
    case NodeRemove(inst, j) => j < |inst.secondaries|
    case NodeRecheck(inst, j) => j < |inst.secondaries|
    case NodeWrite(inst, j) => j < |inst.secondaries|
    case _ => true
  }

  predicate InFinalizer(at: Point) {
    at.FinalOngoing? || at.FinalRead? || at.FinalDelete? || at.FinalRelease?
  }

  /** finalizeTeamCity: the checkpoint of a deleted instance goes first, then its finalizer. */
  function CallFinalizer(p: Platform, s: System, ok: bool): (t: System)
    requires WellFormed(s.at) && InFinalizer(s.at)
    ensures WellFormed(t.at)
  {
    var c := s.c;
    match s.at
    case FinalOngoing(inst) =>
      System(c, if ok && c.checkpoint.Some? then FinalRead(inst) else FinalRelease(inst))
    case FinalRead(inst) =>
      System(c, if ok then FinalDelete(inst, c.checkpoint.Some?) else Rest(Failed))
    case FinalDelete(inst, found) =>
      if ok && found && c.checkpoint.Some? then System(c.(checkpoint := None), FinalRelease(inst))
      else System(c, Rest(Failed))
    case FinalRelease(inst) =>
      if ok then System(c.(teamcity := None), Rest(Finished)) else System(c, Rest(Failed))
  }

  predicate InDetection(at: Point) {
    at.ReadOngoing? || at.Detect? || at.ReadStage?
  }

  /** Whether an upgrade is under way or has to be started, and at which stage it stands. */
  function CallDetection(p: Platform, s: System, ok: bool): (t: System)
    requires WellFormed(s.at) && InDetection(s.at)
    ensures WellFormed(t.at)
  {
    var c := s.c;
    match s.at
    case ReadOngoing(inst) =>
      var ongoing := ok && c.checkpoint.Some?;
      System(c, if inst.zeroDowntime || ongoing then Detect(inst, ongoing, 0) else Support(inst))
    case Detect(inst, ongoing, i) =>
      var node := AllNodes(inst)[i];
      System(c,
        if !ok then Support(inst)
        else if node.name !in c.sets then AfterDetect(inst, false, ongoing)
        else if NeedsRestart(p, node, c.sets[node.name]) then AfterDetect(inst, true, ongoing)
        else if i + 1 < |AllNodes(inst)| then Detect(inst, ongoing, i + 1)
        else AfterDetect(inst, false, ongoing))
    case ReadStage(inst) =>
      System(c,
        if !ok then Rest(Failed)
        else Dispatch(inst, if c.checkpoint.Some? then c.checkpoint.value else InitialStage(inst)))
  }

  predicate InHandler(at: Point) {
    || at.ReplicaReadMain? || at.ReplicaMake? || at.ReplicaPoll?
    || at.CertRevision? || at.CertGeneration?
    || at.ReplicaLookup? || at.ReplicaDelete?
    || at.DropRead? || at.DropDelete?
  }

  /** The stage handlers, up to the request for the next stage. */
  function CallHandler(p: Platform, s: System, ok: bool): (t: System)
    requires WellFormed(s.at) && InHandler(s.at)
    ensures WellFormed(t.at)
  {
    var c := s.c;
    match s.at
    case ReplicaReadMain(inst) =>
      System(c,
        if !ok || inst.main.name !in c.sets then Rest(Failed)
        else ReplicaMake(inst, c.sets[inst.main.name].template))
    case ReplicaMake(inst, template) =>
      System(if ok then ApplyReplica(p, c, inst, template) else c, Persist(inst, ReplicaStarting))
    case ReplicaPoll(inst) =>
      System(c,
        if !ok || ReplicaName(inst) !in c.sets then Rest(Failed)
        else if c.sets[ReplicaName(inst)].ready then Persist(inst, ReplicaReady)
        else Rest(Requeued))
    case CertRevision(inst) =>
      System(c,
        if !ok || inst.main.name !in c.sets then Rest(Failed)
        else CertGeneration(inst, IsUpdateFinished(c.sets[inst.main.name])))
    case CertGeneration(inst, finished) =>
      System(c,
        if !ok || inst.main.name !in c.sets then Rest(Failed)
        else if finished && IsNewestGeneration(c.sets[inst.main.name]) then Persist(inst, MainReady)
        else Rest(Requeued))
    case ReplicaLookup(inst) =>
      System(c,
        if !ok then Support(inst)
        else if ReplicaName(inst) in c.sets then ReplicaDelete(inst)
        else Persist(inst, UpdateFinished))
    case ReplicaDelete(inst) =>
      if ok then System(Remove(c, ReplicaName(inst)), Persist(inst, UpdateFinished)) else System(c, Rest(Failed))
    case DropRead(inst) =>
      System(c, if ok then DropDelete(inst, c.checkpoint.Some?) else Rest(Failed))
    case DropDelete(inst, found) =>
      if ok && found && c.checkpoint.Some? then System(c.(checkpoint := None), Support(inst))
      else System(c, Rest(Failed))
  }

  predicate InPersist(at: Point) {
    at.Persist? || at.PersistCreate? || at.PersistUpdate?
  }

  /** DoCheckpointWithDesiredStage. A failed update is swallowed, a failed creation is not. */
  function CallPersist(p: Platform, s: System, ok: bool): (t: System)
    requires WellFormed(s.at) && InPersist(s.at)
    ensures WellFormed(t.at)
  {
    var c := s.c;
    match s.at
    case Persist(inst, desired) =>
      System(c,
        if !ok then Rest(Failed)
        else if c.checkpoint.None? then PersistCreate(inst, desired)
        else if CanChange(c.checkpoint.value, desired) then PersistUpdate(inst, desired)
        else Rest(Failed))
    case PersistCreate(inst, desired) =>
      if ok && c.checkpoint.None? then System(c.(checkpoint := Some(desired)), AfterPersist(inst, desired))
      else System(c, Rest(Failed))
    case PersistUpdate(inst, desired) =>
      System(if ok && c.checkpoint.Some? then c.(checkpoint := Some(desired)) else c, AfterPersist(inst, desired))
  }

  predicate InMain(at: Point) {
    at.Support? || at.MainHook? || at.MainRemove? || at.MainRecheck? || at.MainWrite?
  }

  /** The builder pass up to the main StatefulSet. A recreate that is still terminating only ends
      this builder, not the pass. */
  function CallMain(p: Platform, s: System, ok: bool): (t: System)
    requires WellFormed(s.at) && InMain(s.at)
    ensures WellFormed(t.at)
  {
    var c := s.c;
    match s.at
    case Support(inst) =>
      if ok then System(c.(support := inst.support), MainHook(inst)) else System(c, Rest(Failed))
    case MainHook(inst) =>
      System(c,
        if !ok then Rest(Failed)
        else if inst.main.name !in c.sets || !Drifted(inst.main, c.sets[inst.main.name]) then MainWrite(inst)
        else if inst.allowRecreate then MainRemove(inst)
        else Rest(Blocked))
    case MainRemove(inst) =>
      if !ok then System(c, Rest(Failed))
      else if inst.main.name !in c.sets then System(c, MainWrite(inst))
      else System(Remove(c, inst.main.name), MainRecheck(inst))
    case MainRecheck(inst) =>
      System(c, if ok && inst.main.name in c.sets then Obsolete(inst) else MainWrite(inst))
    case MainWrite(inst) =>
      var r := Apply(p, c, MainRole, inst.main);
      if !ok then System(c, Rest(Failed))
      else if r.None? then System(c, Rest(Blocked))
      else System(r.value, Obsolete(inst))
  }

  predicate InGate(at: Point) {
    at.Obsolete? || at.Prune? || at.GateGeneration? || at.GateRevision? || at.GateOngoing?
  }

  /** Obsolete secondaries go first; then the main node has to be settled and no upgrade under way. */
  function CallGate(p: Platform, s: System, ok: bool): (t: System)
    requires WellFormed(s.at) && InGate(s.at)
    ensures WellFormed(t.at)
  {
    var c := s.c;
    match s.at
    case Obsolete(inst) =>
      var names := ObsoleteNames(c, inst);
      System(c, if !ok then Rest(Failed) else if names == {} then AfterPrune(inst) else Prune(inst, names))
    case Prune(inst, rest) =>
      // the deletions of one listing happen in the order of the listing
      var name := First(rest);
      if !ok || name !in c.sets then System(c, Rest(Failed))
      else System(Remove(c, name), if rest == {name} then AfterPrune(inst) else Prune(inst, rest - {name}))
    case GateGeneration(inst) =>
      System(c, GateRevision(inst, ok && inst.main.name in c.sets && IsNewestGeneration(c.sets[inst.main.name])))
    case GateRevision(inst, newest) =>
      System(c, GateOngoing(inst, newest && ok && inst.main.name in c.sets && IsUpdateFinished(c.sets[inst.main.name])))
    case GateOngoing(inst, settled) =>
      var ongoing := ok && c.checkpoint.Some?;
      System(c, if settled && !ongoing then NodeHook(inst, 0) else Rest(Requeued))
  }

  predicate InNode(at: Point) {
    at.NodeHook? || at.NodeRemove? || at.NodeRecheck? || at.NodeWrite? || at.LastCheck?
  }

  /** The secondaries in the order of the spec, and the closing look at the checkpoint. */
  function CallNode(p: Platform, s: System, ok: bool): (t: System)
    requires WellFormed(s.at) && InNode(s.at)
    ensures WellFormed(t.at)
  {
    var c := s.c;
    match s.at
    case NodeHook(inst, j) =>
      var node := NodeAt(inst, j);
      System(c,
        if !ok then Rest(Failed)
        else if node.name !in c.sets || !Drifted(node, c.sets[node.name]) then NodeWrite(inst, j)
        else if inst.allowRecreate then NodeRemove(inst, j)
        else Rest(Blocked))
    case NodeRemove(inst, j) =>
      var node := NodeAt(inst, j);
      if !ok then System(c, Rest(Failed))
      else if node.name !in c.sets then System(c, NodeWrite(inst, j))
      else System(Remove(c, node.name), NodeRecheck(inst, j))
    case NodeRecheck(inst, j) =>
      System(c, if ok && NodeAt(inst, j).name in c.sets then LastCheck(inst) else NodeWrite(inst, j))
    case NodeWrite(inst, j) =>
      var r := Apply(p, c, SecondaryRole, NodeAt(inst, j));
      if !ok then System(c, Rest(Failed))
      else if r.None? then System(c, Rest(Blocked))
      else System(r.value, NextNode(inst, j))
    case LastCheck(inst) =>
      System(c, Rest(if ok && c.checkpoint.Some? then Requeued else Finished))
  }

  /** The call at `s.at` is made. `ok` is false when the API server answers with an error other
      than "not found" and does nothing. */
  function Call(p: Platform, s: System, ok: bool): (t: System)
    requires WellFormed(s.at)
    ensures WellFormed(t.at)
  {
    if s.at.Rest? then
      if !ok then System(s.c, Rest(Failed))
      else if s.c.teamcity.None? then System(s.c, Rest(Finished))
      else if s.c.teamcity.value.deleting then System(s.c, FinalOngoing(s.c.teamcity.value))
      else System(s.c, ReadOngoing(s.c.teamcity.value))
    else if InFinalizer(s.at) then CallFinalizer(p, s, ok)
    else if InDetection(s.at) then CallDetection(p, s, ok)
    else if InHandler(s.at) then CallHandler(p, s, ok)
    else if InPersist(s.at) then CallPersist(p, s, ok)
    else if InMain(s.at) then CallMain(p, s, ok)
    else if InGate(s.at) then CallGate(p, s, ok)
    else CallNode(p, s, ok)
  }

  lemma CallByGroup(p: Platform, s: System, ok: bool)
    requires WellFormed(s.at)
    ensures InFinalizer(s.at) ==> Call(p, s, ok) == CallFinalizer(p, s, ok)
    ensures InDetection(s.at) ==> Call(p, s, ok) == CallDetection(p, s, ok)
    ensures InHandler(s.at) ==> Call(p, s, ok) == CallHandler(p, s, ok)
    ensures InPersist(s.at) ==> Call(p, s, ok) == CallPersist(p, s, ok)
    ensures InMain(s.at) ==> Call(p, s, ok) == CallMain(p, s, ok)
    ensures InGate(s.at) ==> Call(p, s, ok) == CallGate(p, s, ok)
    ensures InNode(s.at) ==> Call(p, s, ok) == CallNode(p, s, ok)
  {
  }

  /** The only calls that rewrite the template of a StatefulSet. */
  lemma TemplateWriters(p: Platform, s: System, ok: bool, n: string)
    requires WellFormed(s.at)
    requires n in s.c.sets && n in Call(p, s, ok).c.sets
    requires Call(p, s, ok).c.sets[n].template != s.c.sets[n].template
    ensures ok
    ensures || (s.at.MainWrite? && n == s.at.inst.main.name)
            || (s.at.NodeWrite? && n == NodeAt(s.at.inst, s.at.j).name)
            || (s.at.ReplicaMake? && n == ReplicaName(s.at.inst))
  {
  }

  // ---- Runs ----

  datatype Act = Op(ok: bool) | Crash | World(event: Event)

  function Step(p: Platform, s: System, a: Act): (t: System)
    requires WellFormed(s.at)
    ensures WellFormed(t.at)
  {
    match a
    case Op(ok) => Call(p, s, ok)
    case Crash => System(s.c, Rest(Crashed))
    case World(e) => System(Happen(s.c, e), s.at)
  }

  function Run(p: Platform, s: System, acts: seq<Act>): (t: System)
    requires WellFormed(s.at)
    ensures WellFormed(t.at)
    decreases |acts|
  {
    if acts == [] then s else Run(p, Step(p, s, acts[0]), acts[1..])
  }

  lemma {:induction false} RunsCompose(p: Platform, s: System, a: seq<Act>, b: seq<Act>)
    requires WellFormed(s.at)
    ensures Run(p, s, a + b) == Run(p, Run(p, s, a), b)
    decreases |a|
  {
    if a == [] {
      assert a + b == b;
    } else {
      assert (a + b)[1..] == a[1..] + b;
      RunsCompose(p, Step(p, s, a[0]), a[1..], b);
    }
  }

  /** Every state of a run, the first and the last included. */
  function Trace(p: Platform, s: System, acts: seq<Act>): (trace: seq<System>)
    requires WellFormed(s.at)
    ensures |trace| == |acts| + 1
    ensures trace[0] == s && trace[|acts|] == Run(p, s, acts)
    ensures forall i | 0 <= i < |acts| :: WellFormed(trace[i].at) && trace[i + 1] == Step(p, trace[i], acts[i])
    decreases |acts|
  {
    if acts == [] then [s]
    else
      var rest := Trace(p, Step(p, s, acts[0]), acts[1..]);
      assert forall i | 0 < i < |acts| :: acts[i] == acts[1..][i - 1];
      [s] + rest
  }
}
