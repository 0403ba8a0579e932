/** The operator as it is written: an API client, a checkpoint object and a reconciler whose methods
    call them in turn. Each method is proved to make exactly the small steps of Protocol. */
module Reconciler {
  import opened PodTree
  import opened PodTemplate
  import opened Stages
  import opened Cluster
  import opened Protocol
  import opened Driver
  import Detection
  import Ordering

  datatype Reply<+T> = Got(value: T) | NotFound | Error

  datatype WriteReply = Done | Missing | Refused | Broken

  /** The API server. Every call first lets the cluster move on as the script says. */
  class Client {
    var cluster: Cluster
    var script: Script

    constructor (c: Cluster, s: Script)
      ensures cluster == c && script == s
    {
      cluster, script := c, s;
    }

    /** The cluster as the next call will find it. */
    function Ahead(): Cluster
      reads this
    {
      HappenAll(cluster, Now(script).before)
    }

    method Advance() returns (ok: bool)
      modifies this
      ensures cluster == old(Ahead()) && script == Later(old(script)) && ok == Now(old(script)).ok
    {
      ok := Now(script).ok;
      cluster := HappenAll(cluster, Now(script).before);
      script := Later(script);
    }

    method GetTeamCity() returns (r: Reply<Instance>)
      modifies this
      ensures cluster == old(Ahead()) && script == Later(old(script))
      ensures r == if !Now(old(script)).ok then Error
                   else if cluster.teamcity.None? then NotFound
                   else Got(cluster.teamcity.value)
    {
      var ok := Advance();
      return if !ok then Error else if cluster.teamcity.None? then NotFound else Got(cluster.teamcity.value);
    }

    /** The text that the ConfigMap holds. */
    method GetConfigMap() returns (r: Reply<string>)
      modifies this
      ensures cluster == old(Ahead()) && script == Later(old(script))
      ensures r == if !Now(old(script)).ok then Error
                   else if cluster.checkpoint.None? then NotFound
                   else Got(ToText(cluster.checkpoint.value))
    {
      var ok := Advance();
      return if !ok then Error
             else if cluster.checkpoint.None? then NotFound
             else Got(ToText(cluster.checkpoint.value));
    }

    method GetSet(name: string) returns (r: Reply<StatefulSet>)
      modifies this
      ensures cluster == old(Ahead()) && script == Later(old(script))
      ensures r == if !Now(old(script)).ok then Error
                   else if name !in cluster.sets then NotFound
                   else Got(cluster.sets[name])
    {
      var ok := Advance();
      return if !ok then Error else if name !in cluster.sets then NotFound else Got(cluster.sets[name]);
    }

    method CreateConfigMap(text: string) returns (ok: bool)
      modifies this
      ensures script == Later(old(script))
      ensures ok == (Now(old(script)).ok && old(Ahead()).checkpoint.None?)
      ensures cluster == if ok then old(Ahead()).(checkpoint := Some(FromText(text))) else old(Ahead())
    {
      ok := Advance();
      ok := ok && cluster.checkpoint.None?;
      if ok {
        cluster := cluster.(checkpoint := Some(FromText(text)));
      }
    }

    method UpdateConfigMap(text: string) returns (ok: bool)
      modifies this
      ensures script == Later(old(script))
      ensures ok == (Now(old(script)).ok && old(Ahead()).checkpoint.Some?)
      ensures cluster == if ok then old(Ahead()).(checkpoint := Some(FromText(text))) else old(Ahead())
    {
      ok := Advance();
      ok := ok && cluster.checkpoint.Some?;
      if ok {
        cluster := cluster.(checkpoint := Some(FromText(text)));
      }
    }

    /** Deleting the object that a read did not find means deleting one without a name. */
    method DeleteConfigMap(found: bool) returns (ok: bool)
      modifies this
      ensures script == Later(old(script))
      ensures ok == (Now(old(script)).ok && found && old(Ahead()).checkpoint.Some?)
      ensures cluster == if ok then old(Ahead()).(checkpoint := None) else old(Ahead())
    {
      ok := Advance();
      ok := ok && found && cluster.checkpoint.Some?;
      if ok {
        cluster := cluster.(checkpoint := None);
      }
    }

    method ReleaseTeamCity() returns (ok: bool)
      modifies this
      ensures script == Later(old(script)) && ok == Now(old(script)).ok
      ensures cluster == if ok then old(Ahead()).(teamcity := None) else old(Ahead())
    {
      ok := Advance();
      if ok {
        cluster := cluster.(teamcity := None);
      }
    }

    method WriteSupport(support: Tree) returns (ok: bool)
      modifies this
      ensures script == Later(old(script)) && ok == Now(old(script)).ok
      ensures cluster == if ok then old(Ahead()).(support := support) else old(Ahead())
    {
      ok := Advance();
      if ok {
        cluster := cluster.(support := support);
      }
    }

    method CreateOrUpdateSet(p: Platform, role: Role, node: Node) returns (r: WriteReply)
      modifies this
      ensures script == Later(old(script))
      ensures var a := Apply(p, old(Ahead()), role, node);
              && r == (if !Now(old(script)).ok then Broken else if a.None? then Refused else Done)
              && cluster == (if r.Done? then a.value else old(Ahead()))
    {
      var ok := Advance();
      var a := Apply(p, cluster, role, node);
      r := if !ok then Broken else if a.None? then Refused else Done;
      if r.Done? {
        cluster := a.value;
      }
    }

    method CreateOrUpdateReplica(p: Platform, inst: Instance, template: Template) returns (ok: bool)
      modifies this
      ensures script == Later(old(script)) && ok == Now(old(script)).ok
      ensures cluster == if ok then ApplyReplica(p, old(Ahead()), inst, template) else old(Ahead())
    {
      ok := Advance();
      if ok {
        cluster := ApplyReplica(p, cluster, inst, template);
      }
    }

    method DeleteSet(name: string) returns (r: WriteReply)
      modifies this
      ensures script == Later(old(script))
      ensures r == if !Now(old(script)).ok then Broken else if name !in old(Ahead()).sets then Missing else Done
      ensures cluster == if r.Done? then Remove(old(Ahead()), name) else old(Ahead())
    {
      var ok := Advance();
      r := if !ok then Broken else if name !in cluster.sets then Missing else Done;
      if r.Done? {
        cluster := Remove(cluster, name);
      }
    }

    /** The names of the StatefulSets that carry the selector of the secondaries. */
    method ListSecondaries() returns (ok: bool, names: set<string>)
      modifies this
      ensures cluster == old(Ahead()) && script == Later(old(script)) && ok == Now(old(script)).ok
      ensures names == set n | n in cluster.sets && cluster.sets[n].role == SecondaryRole
    {
      ok := Advance();
      names := set n | n in cluster.sets && cluster.sets[n].role == SecondaryRole;
    }
  }

  /** How the pass that runs on this client ends from the point `at`. */
  function FinishFrom(p: Platform, client: Client, at: Point): (System, Script)
    requires WellFormed(at)
    reads client
  {
    Finish(p, System(client.cluster, at), client.script)
  }

  // Doing the call at a point and going on is what the pass does from that point.

  lemma FinalizerTick(p: Platform, c: Cluster, at: Point, script: Script)
    requires WellFormed(at) && InFinalizer(at)
    ensures Finish(p, System(c, at), script)
         == Finish(p, CallFinalizer(p, Moved(System(c, at), Now(script)), Now(script).ok), Later(script))
  {
    CallByGroup(p, Moved(System(c, at), Now(script)), Now(script).ok);
  }

  lemma DetectionTick(p: Platform, c: Cluster, at: Point, script: Script)
    requires WellFormed(at) && InDetection(at)
    ensures Finish(p, System(c, at), script)
         == Finish(p, CallDetection(p, Moved(System(c, at), Now(script)), Now(script).ok), Later(script))
  {
    CallByGroup(p, Moved(System(c, at), Now(script)), Now(script).ok);
  }

  lemma HandlerTick(p: Platform, c: Cluster, at: Point, script: Script)
    requires WellFormed(at) && InHandler(at)
    ensures Finish(p, System(c, at), script)
         == Finish(p, CallHandler(p, Moved(System(c, at), Now(script)), Now(script).ok), Later(script))
  {
    CallByGroup(p, Moved(System(c, at), Now(script)), Now(script).ok);
  }

  lemma PersistTick(p: Platform, c: Cluster, at: Point, script: Script)
    requires WellFormed(at) && InPersist(at)
    ensures Finish(p, System(c, at), script)
         == Finish(p, CallPersist(p, Moved(System(c, at), Now(script)), Now(script).ok), Later(script))
  {
    CallByGroup(p, Moved(System(c, at), Now(script)), Now(script).ok);
  }

  lemma MainTick(p: Platform, c: Cluster, at: Point, script: Script)
    requires WellFormed(at) && InMain(at)
    ensures Finish(p, System(c, at), script)
         == Finish(p, CallMain(p, Moved(System(c, at), Now(script)), Now(script).ok), Later(script))
  {
    CallByGroup(p, Moved(System(c, at), Now(script)), Now(script).ok);
  }

  lemma GateTick(p: Platform, c: Cluster, at: Point, script: Script)
    requires WellFormed(at) && InGate(at)
    ensures Finish(p, System(c, at), script)
         == Finish(p, CallGate(p, Moved(System(c, at), Now(script)), Now(script).ok), Later(script))
  {
    CallByGroup(p, Moved(System(c, at), Now(script)), Now(script).ok);
  }

  lemma NodeTick(p: Platform, c: Cluster, at: Point, script: Script)
    requires WellFormed(at) && InNode(at)
    ensures Finish(p, System(c, at), script)
         == Finish(p, CallNode(p, Moved(System(c, at), Now(script)), Now(script).ok), Later(script))
  {
    CallByGroup(p, Moved(System(c, at), Now(script)), Now(script).ok);
  }

  // ---- Checkpoint ----

  class Checkpoint {
    const client: Client
    const inst: Instance
    var currentStage: Stage

    constructor (client: Client, inst: Instance)
      ensures this.client == client && this.inst == inst && currentStage == InitialStage(inst)
    {
      this.client, this.inst := client, inst;
      currentStage := InitialStage(inst);
    }

    /** `FetchCurrentStageFromCluster`: parses what the ConfigMap says. */
    method FetchCurrentStageFromCluster() returns (r: Reply<Stage>)
      modifies client
      ensures client.cluster == old(client.Ahead()) && client.script == Later(old(client.script))
      ensures r == if !Now(old(client.script)).ok then Error
                   else if client.cluster.checkpoint.None? then NotFound
                   else Got(client.cluster.checkpoint.value)
    {
      var text := client.GetConfigMap();
      match text {
        case Error => r := Error;
        case NotFound => r := NotFound;
        case Got(t) =>
          TextRoundTrip(client.cluster.checkpoint.value);
          r := Got(FromText(t));
      }
    }

    method UpdateStageFromConfigMap(p: Platform) returns (ok: bool)
      modifies this, client
      ensures old(FinishFrom(p, client, ReadStage(inst)))
           == FinishFrom(p, client, if ok then Dispatch(inst, currentStage) else Rest(Failed))
      ensures ok == Now(old(client.script)).ok
      ensures var stored := old(client.Ahead()).checkpoint;
              currentStage == if !ok then old(currentStage)
                              else if stored.None? then InitialStage(inst) else stored.value
    {
      DetectionTick(p, client.cluster, ReadStage(inst), client.script);
      var r := FetchCurrentStageFromCluster();
      match r {
        case Error => return false;
        case NotFound => currentStage := InitialStage(inst);
        case Got(stage) => currentStage := stage;
      }
      ok := true;
    }

    method DoCheckpointWithDesiredStage(p: Platform, desired: Stage) returns (ok: bool)
      modifies this, client
      ensures old(FinishFrom(p, client, Persist(inst, desired)))
           == FinishFrom(p, client, if ok then AfterPersist(inst, desired) else Rest(Failed))
      // the stage is taken from the cluster, and moves on only where it may, stored or not
      ensures var stored := old(client.Ahead()).checkpoint;
              currentStage == if !Now(old(client.script)).ok then old(currentStage)
                              else if stored.Some? && !CanChange(stored.value, desired) then stored.value
                              else desired
      ensures ok ==> currentStage == desired
    {
      PersistTick(p, client.cluster, Persist(inst, desired), client.script);
      var r := FetchCurrentStageFromCluster();
      TextRoundTrip(desired);
      match r {
        case Error => return false;
        case NotFound =>
          currentStage := desired;
          PersistTick(p, client.cluster, PersistCreate(inst, desired), client.script);
          ok := client.CreateConfigMap(ToText(currentStage));
        case Got(stage) =>
          currentStage := stage;
          if !CanChange(currentStage, desired) {
            return false;
          }
          currentStage := desired;
          PersistTick(p, client.cluster, PersistUpdate(inst, desired), client.script);
          // the error of the update is swallowed
          var _ := client.UpdateConfigMap(ToText(currentStage));
          ok := true;
      }
    }

    /** Drops the checkpoint, as the last handler and the finalizer do. */
    method Delete(p: Platform, finalizing: bool) returns (ok: bool)
      modifies client
      ensures old(FinishFrom(p, client, if finalizing then FinalRead(inst) else DropRead(inst)))
           == FinishFrom(p, client, if !ok then Rest(Failed)
                                    else if finalizing then FinalRelease(inst) else Support(inst))
    {
      if finalizing {
        FinalizerTick(p, client.cluster, FinalRead(inst), client.script);
      } else {
        HandlerTick(p, client.cluster, DropRead(inst), client.script);
      }
      var r := client.GetConfigMap();
      if r.Error? {
        return false;
      }
      if finalizing {
        FinalizerTick(p, client.cluster, FinalDelete(inst, r.Got?), client.script);
      } else {
        HandlerTick(p, client.cluster, DropDelete(inst, r.Got?), client.script);
      }
      ok := client.DeleteConfigMap(r.Got?);
    }
  }

  // ---- The reconciler ----

  /** What a handler's answer means for the pass. */
  function Continue(inst: Instance, requeue: bool, ok: bool): Point {
    if !ok then Rest(Failed) else if requeue then Rest(Requeued) else Support(inst)
  }

  datatype Builder = SupportBuilders | StatefulSetBuilder | SecondaryStatefulSetBuilder

  /** PersistentVolumeClaim, ServiceAccount, Service and Ingress stand first and are taken as one. */
  function ResourceBuilders(): seq<Builder> {
    [SupportBuilders, StatefulSetBuilder, SecondaryStatefulSetBuilder]
  }

  /** Where the pass stands before builder number `k`. */
  function BuilderPoint(inst: Instance, k: nat): (at: Point)
    ensures WellFormed(at)
  {
    if k == 0 then Support(inst)
    else if k == 1 then MainHook(inst)
    else if k == 2 then Obsolete(inst)
    else LastCheck(inst)
  }

  function BuilderNumber(b: Builder): nat {
    match b
    case SupportBuilders => 0
    case StatefulSetBuilder => 1
    case SecondaryStatefulSetBuilder => 2
  }

  /** Where the pass stands before the first object of a builder. */
  function ObjectPoint(inst: Instance, b: Builder): (at: Point)
    ensures WellFormed(at)
  {
    match b
    case SupportBuilders => Support(inst)
    case StatefulSetBuilder => MainHook(inst)
    case SecondaryStatefulSetBuilder => NodePoint(inst, 0)
  }

  /** A failed or blocked builder ends the pass; one that asks to be requeued does not. */
  function NextBuilder(inst: Instance, k: nat, r: HookReply): (at: Point)
    ensures WellFormed(at)
  {
    match r
    case HookFailed => Rest(Failed)
    case HookBlocked => Rest(Blocked)
    case _ => BuilderPoint(inst, k + 1)
  }

  /** The StatefulSet that a builder is working on: the main one, or that of a secondary. */
  datatype Target = MainTarget | NodeTarget(j: nat)

  predicate Valid(inst: Instance, x: Target) {
    x.NodeTarget? ==> x.j < |inst.secondaries|
  }

  function NodeOf(inst: Instance, x: Target): Node
    requires Valid(inst, x)
  {
    if x.MainTarget? then inst.main else NodeAt(inst, x.j)
  }

  function HookPoint(inst: Instance, x: Target): Point {
    if x.MainTarget? then MainHook(inst) else NodeHook(inst, x.j)
  }

  function RemovePoint(inst: Instance, x: Target): Point {
    if x.MainTarget? then MainRemove(inst) else NodeRemove(inst, x.j)
  }

  function RecheckPoint(inst: Instance, x: Target): Point {
    if x.MainTarget? then MainRecheck(inst) else NodeRecheck(inst, x.j)
  }

  function WritePoint(inst: Instance, x: Target): Point {
    if x.MainTarget? then MainWrite(inst) else NodeWrite(inst, x.j)
  }

  /** A requeue ends the builder but not the pass. */
  function RequeuePoint(inst: Instance, x: Target): Point {
    if x.MainTarget? then Obsolete(inst) else LastCheck(inst)
  }

  datatype HookReply = Proceed | Requeue | HookBlocked | HookFailed

  function AfterHook(inst: Instance, x: Target, r: HookReply): Point {
    match r
    case Proceed => WritePoint(inst, x)
    case Requeue => RequeuePoint(inst, x)
    case HookBlocked => Rest(Blocked)
    case HookFailed => Rest(Failed)
  }

  lemma DetectTick(p: Platform, c: Cluster, inst: Instance, ongoing: bool, i: nat, script: Script)
    requires i < |AllNodes(inst)|
    ensures Finish(p, System(c, Detect(inst, ongoing, i)), script)
         == var d, node := HappenAll(c, Now(script).before), AllNodes(inst)[i];
            Finish(p, System(d, if !Now(script).ok then Support(inst)
                                else if node.name !in d.sets then AfterDetect(inst, false, ongoing)
                                else if NeedsRestart(p, node, d.sets[node.name]) then AfterDetect(inst, true, ongoing)
                                else AfterDetectUpTo(inst, ongoing, i + 1)), Later(script))
  {
    DetectionTick(p, c, Detect(inst, ongoing, i), script);
  }

  /** The first `i` nodes exist and are unchanged. */
  function AfterDetectUpTo(inst: Instance, ongoing: bool, i: nat): (at: Point)
    ensures WellFormed(at)
  {
    if i < |AllNodes(inst)| then Detect(inst, ongoing, i) else AfterDetect(inst, false, ongoing)
  }

  lemma LookupTick(p: Platform, c: Cluster, inst: Instance, script: Script)
    ensures Finish(p, System(c, ReplicaLookup(inst)), script)
         == var d := HappenAll(c, Now(script).before);
            Finish(p, System(d, if !Now(script).ok then Support(inst)
                                else if ReplicaName(inst) in d.sets then ReplicaDelete(inst)
                                else Persist(inst, UpdateFinished)), Later(script))
  {
    HandlerTick(p, c, ReplicaLookup(inst), script);
  }

  lemma DismissTick(p: Platform, c: Cluster, inst: Instance, script: Script)
    ensures Finish(p, System(c, ReplicaDelete(inst)), script)
         == var d := HappenAll(c, Now(script).before);
            Finish(p, if Now(script).ok then System(Remove(d, ReplicaName(inst)), Persist(inst, UpdateFinished))
                      else System(d, Rest(Failed)), Later(script))
  {
    HandlerTick(p, c, ReplicaDelete(inst), script);
  }

  // The calls about one StatefulSet do the same for the main node and for a secondary.

  lemma HookTick(p: Platform, c: Cluster, inst: Instance, x: Target, script: Script)
    requires Valid(inst, x)
    ensures Finish(p, System(c, HookPoint(inst, x)), script)
         == var d, node := HappenAll(c, Now(script).before), NodeOf(inst, x);
            Finish(p, System(d, if !Now(script).ok then Rest(Failed)
                                else if node.name !in d.sets then WritePoint(inst, x)
                                else if !Drifted(node, d.sets[node.name]) then WritePoint(inst, x)
                                else if inst.allowRecreate then RemovePoint(inst, x)
                                else Rest(Blocked)), Later(script))
  {
    if x.MainTarget? {
      MainTick(p, c, HookPoint(inst, x), script);
    } else {
      NodeTick(p, c, HookPoint(inst, x), script);
    }
  }

  lemma RemoveTick(p: Platform, c: Cluster, inst: Instance, x: Target, script: Script)
    requires Valid(inst, x)
    ensures Finish(p, System(c, RemovePoint(inst, x)), script)
         == var d, node := HappenAll(c, Now(script).before), NodeOf(inst, x);
            Finish(p, if !Now(script).ok then System(d, Rest(Failed))
                      else if node.name !in d.sets then System(d, WritePoint(inst, x))
                      else System(Remove(d, node.name), RecheckPoint(inst, x)), Later(script))
  {
    if x.MainTarget? {
      MainTick(p, c, RemovePoint(inst, x), script);
    } else {
      NodeTick(p, c, RemovePoint(inst, x), script);
    }
  }

  lemma RecheckTick(p: Platform, c: Cluster, inst: Instance, x: Target, script: Script)
    requires Valid(inst, x)
    ensures Finish(p, System(c, RecheckPoint(inst, x)), script)
         == var d, node := HappenAll(c, Now(script).before), NodeOf(inst, x);
            Finish(p, System(d, if Now(script).ok && node.name in d.sets then RequeuePoint(inst, x)
                                else WritePoint(inst, x)), Later(script))
  {
    if x.MainTarget? {
      MainTick(p, c, RecheckPoint(inst, x), script);
    } else {
      NodeTick(p, c, RecheckPoint(inst, x), script);
    }
  }

  function RoleOf(x: Target): Role {
    if x.MainTarget? then MainRole else SecondaryRole
  }

  function AfterWrite(inst: Instance, x: Target): Point {
    if x.MainTarget? then Obsolete(inst) else NextNode(inst, x.j)
  }

  lemma WriteTick(p: Platform, c: Cluster, inst: Instance, x: Target, script: Script)
    requires Valid(inst, x)
    ensures Finish(p, System(c, WritePoint(inst, x)), script)
         == var d := HappenAll(c, Now(script).before);
            var a := Apply(p, d, RoleOf(x), NodeOf(inst, x));
            Finish(p, if !Now(script).ok then System(d, Rest(Failed))
                      else if a.None? then System(d, Rest(Blocked))
                      else System(a.value, AfterWrite(inst, x)), Later(script))
  {
    if x.MainTarget? {
      MainTick(p, c, WritePoint(inst, x), script);
    } else {
      NodeTick(p, c, WritePoint(inst, x), script);
    }
  }

  /** The search loop of the builder finds a name exactly if the spec lists it. */
  lemma NamedIffListed(inst: Instance, n: string)
    ensures NodeNamed(inst.secondaries, n).Some? <==> n in SecondaryNames(inst)
  {
    if NodeNamed(inst.secondaries, n).Some? {
      var i :| 0 <= i < |inst.secondaries| && inst.secondaries[i] == NodeNamed(inst.secondaries, n).value;
      assert inst.secondaries[i].name in SecondaryNames(inst);
    }
  }

  // What the gate sees, read by read.

  predicate NewestSeen(inst: Instance, c: Cluster, script: Script) {
    var d := Found(c, script, 0);
    TurnAt(script, 0).ok && inst.main.name in d.sets && IsNewestGeneration(d.sets[inst.main.name])
  }

  predicate FinishedSeen(inst: Instance, c: Cluster, script: Script) {
    var d := Found(c, script, 1);
    TurnAt(script, 1).ok && inst.main.name in d.sets && IsUpdateFinished(d.sets[inst.main.name])
  }

  predicate UpgradeSeen(c: Cluster, script: Script) {
    TurnAt(script, 2).ok && Found(c, script, 2).checkpoint.Some?
  }

  // What the detector sees at its read of node `k`.

  predicate ReadFails(script: Script, k: nat) {
    !TurnAt(script, k).ok
  }

  predicate UnchangedSeen(p: Platform, inst: Instance, c: Cluster, script: Script, k: nat)
    requires k < |AllNodes(inst)|
  {
    !ReadFails(script, k) && Detection.Unchanged(p, inst, Found(c, script, k), k)
  }

  predicate ChangeSeen(p: Platform, inst: Instance, c: Cluster, script: Script, k: nat)
    requires k < |AllNodes(inst)|
  {
    !ReadFails(script, k) && Detection.Changed(p, inst, Found(c, script, k), k)
  }

  /** The reads of the nodes before node `k` find no change. */
  ghost predicate QuietUpTo(p: Platform, inst: Instance, c: Cluster, script: Script, k: nat)
    requires k <= |AllNodes(inst)|
  {
    forall i | 0 <= i < k :: UnchangedSeen(p, inst, c, script, i)
  }

  /** Some read finds a change, and those before it find none. */
  ghost predicate FindsChange(p: Platform, inst: Instance, c: Cluster, script: Script) {
    exists k | 0 <= k < |AllNodes(inst)| :: ChangeSeen(p, inst, c, script, k) && QuietUpTo(p, inst, c, script, k)
  }

  /** Some read fails, and those before it find no change. */
  ghost predicate BreaksOff(p: Platform, inst: Instance, c: Cluster, script: Script) {
    exists k | 0 <= k < |AllNodes(inst)| :: ReadFails(script, k) && QuietUpTo(p, inst, c, script, k)
  }

  lemma QuietToTheEnd(p: Platform, inst: Instance, c: Cluster, script: Script)
    requires QuietUpTo(p, inst, c, script, |AllNodes(inst)|)
    ensures !FindsChange(p, inst, c, script) && !BreaksOff(p, inst, c, script)
  {
    forall k | 0 <= k < |AllNodes(inst)| ensures !ChangeSeen(p, inst, c, script, k) && !ReadFails(script, k) {
      assert UnchangedSeen(p, inst, c, script, k);
    }
  }

  /** The first read that fails, finds no node, or finds a change ends the loop. */
  lemma NothingSeenBeyond(p: Platform, inst: Instance, c: Cluster, script: Script, i: nat)
    requires i < |AllNodes(inst)| && QuietUpTo(p, inst, c, script, i) && !UnchangedSeen(p, inst, c, script, i)
    ensures FindsChange(p, inst, c, script) <==> ChangeSeen(p, inst, c, script, i)
    ensures BreaksOff(p, inst, c, script) <==> ReadFails(script, i)
  {
    forall k | 0 <= k < |AllNodes(inst)| && QuietUpTo(p, inst, c, script, k)
      ensures k <= i && (k < i ==> UnchangedSeen(p, inst, c, script, k))
    {
    }
  }

  datatype SearchResult = RestartSeen | NoneSeen | SearchFailed

  datatype Search = Search(result: SearchResult, c: Cluster, rest: Script)

  /** What the search for a change comes to from node `i` on, and where it leaves cluster and script. */
  function Searched(p: Platform, inst: Instance, c: Cluster, script: Script, i: nat): Search
    requires i <= |AllNodes(inst)|
    decreases |AllNodes(inst)| - i
  {
    if i == |AllNodes(inst)| then Search(NoneSeen, c, script)
    else
      var d, node, rest := HappenAll(c, Now(script).before), AllNodes(inst)[i], Later(script);
      if !Now(script).ok then Search(SearchFailed, d, rest)
      else if node.name !in d.sets then Search(NoneSeen, d, rest)
      else if NeedsRestart(p, node, d.sets[node.name]) then Search(RestartSeen, d, rest)
      else Searched(p, inst, d, rest, i + 1)
  }

  /** Where the pass goes on from a search. */
  function AfterSearch(inst: Instance, ongoing: bool, result: SearchResult): Point {
    if result.SearchFailed? then Support(inst) else AfterDetect(inst, result.RestartSeen?, ongoing)
  }

  lemma {:induction false} SearchEnds(p: Platform, inst: Instance, ongoing: bool, c: Cluster, script: Script, i: nat)
    requires i <= |AllNodes(inst)|
    ensures var s := Searched(p, inst, c, script, i);
            Finish(p, System(c, AfterDetectUpTo(inst, ongoing, i)), script)
            == Finish(p, System(s.c, AfterSearch(inst, ongoing, s.result)), s.rest)
    decreases |AllNodes(inst)| - i
  {
    if i < |AllNodes(inst)| {
      DetectTick(p, c, inst, ongoing, i, script);
      SearchEnds(p, inst, ongoing, HappenAll(c, Now(script).before), Later(script), i + 1);
    }
  }

  /** After the reads of the first `i` nodes, none of which found a change. */
  ghost predicate Seen(p: Platform, inst: Instance, c: Cluster, script: Script, i: nat, d: Cluster, rest: Script)
    requires i <= |AllNodes(inst)|
  {
    rest == After(script, i) && d == (if i == 0 then c else Found(c, script, i - 1)) && QuietUpTo(p, inst, c, script, i)
  }

  lemma {:induction false} SearchGoesOn(p: Platform, inst: Instance, c: Cluster, script: Script, i: nat, d: Cluster,
                                        rest: Script)
    requires i <= |AllNodes(inst)| && Seen(p, inst, c, script, i, d, rest)
    ensures Searched(p, inst, d, rest, i).result.RestartSeen? <==> FindsChange(p, inst, c, script)
    ensures Searched(p, inst, d, rest, i).result.SearchFailed? <==> BreaksOff(p, inst, c, script)
    decreases |AllNodes(inst)| - i
  {
    if i == |AllNodes(inst)| {
      QuietToTheEnd(p, inst, c, script);
    } else {
      var e := HappenAll(d, Now(rest).before);
      assert e == Found(c, script, i);
      if UnchangedSeen(p, inst, c, script, i) {
        assert Seen(p, inst, c, script, i + 1, e, Later(rest));
        SearchGoesOn(p, inst, c, script, i + 1, e, Later(rest));
      } else {
        NothingSeenBeyond(p, inst, c, script, i);
      }
    }
  }

  /** The search finds a change exactly if some read sees one and all reads before it, each of the
      cluster of its own moment, see their node unchanged; it fails exactly if a read does. */
  lemma SearchDecides(p: Platform, inst: Instance, c: Cluster, script: Script)
    ensures Searched(p, inst, c, script, 0).result.RestartSeen? <==>
            exists k | 0 <= k < |AllNodes(inst)| ::
                ChangeSeen(p, inst, c, script, k) && QuietUpTo(p, inst, c, script, k)
    ensures Searched(p, inst, c, script, 0).result.SearchFailed? <==>
            exists k | 0 <= k < |AllNodes(inst)| :: ReadFails(script, k) && QuietUpTo(p, inst, c, script, k)
  {
    SearchGoesOn(p, inst, c, script, 0, c, script);
  }

  class TeamcityReconciler {
    const client: Client
    const p: Platform

    constructor (client: Client, p: Platform)
      ensures this.client == client && this.p == p
    {
      this.client, this.p := client, p;
    }

    /** The pass, as it stands at `at`. */
    function Ends(at: Point): (System, Script)
      requires WellFormed(at)
      reads client
    {
      FinishFrom(p, client, at)
    }

    method HandleUpdateInitiated(k: Checkpoint) returns (requeue: bool, ok: bool)
      requires k.client == client
      modifies k, client
      ensures old(Ends(Dispatch(k.inst, UpdateInitiated))) == Ends(Continue(k.inst, requeue, ok))
    {
      ok := k.DoCheckpointWithDesiredStage(p, ReplicaCreated);
      requeue := ok;
    }

    method HandleReplicaCreated(k: Checkpoint) returns (requeue: bool, ok: bool)
      requires k.client == client
      modifies k, client
      ensures old(Ends(Dispatch(k.inst, ReplicaCreated))) == Ends(Continue(k.inst, requeue, ok))
    {
      HandlerTick(p, client.cluster, ReplicaReadMain(k.inst), client.script);
      var main := client.GetSet(k.inst.main.name);
      if !main.Got? {
        return false, false;
      }
      HandlerTick(p, client.cluster, ReplicaMake(k.inst, main.value.template), client.script);
      // the error of this call is overwritten by the next one
      ok := client.CreateOrUpdateReplica(p, k.inst, main.value.template);
      ok := k.DoCheckpointWithDesiredStage(p, ReplicaStarting);
      requeue := ok;
    }

    method HandleReplicaStarting(k: Checkpoint) returns (requeue: bool, ok: bool)
      requires k.client == client
      modifies k, client
      ensures old(Ends(Dispatch(k.inst, ReplicaStarting))) == Ends(Continue(k.inst, requeue, ok))
    {
      HandlerTick(p, client.cluster, ReplicaPoll(k.inst), client.script);
      var replica := client.GetSet(ReplicaName(k.inst));
      if !replica.Got? {
        return false, false;
      }
      if replica.value.ready {
        ok := k.DoCheckpointWithDesiredStage(p, ReplicaReady);
        if !ok {
          return false, false;
        }
      }
      return true, true;
    }

    method HandleReplicaReady(k: Checkpoint) returns (requeue: bool, ok: bool)
      requires k.client == client
      modifies k, client
      ensures old(Ends(Dispatch(k.inst, ReplicaReady))) == Ends(Continue(k.inst, requeue, ok))
    {
      ok := k.DoCheckpointWithDesiredStage(p, MainShuttingDown);
      requeue := false;
    }

    method HandleMainShuttingDown(k: Checkpoint) returns (requeue: bool, ok: bool)
      requires k.client == client
      modifies k, client
      ensures old(Ends(Dispatch(k.inst, MainShuttingDown))) == Ends(Continue(k.inst, requeue, ok))
    {
      HandlerTick(p, client.cluster, CertRevision(k.inst), client.script);
      var first := client.GetSet(k.inst.main.name);
      if !first.Got? {
        return false, false;
      }
      var finished := IsUpdateFinished(first.value);
      HandlerTick(p, client.cluster, CertGeneration(k.inst, finished), client.script);
      var second := client.GetSet(k.inst.main.name);
      if !second.Got? {
        return false, false;
      }
      if finished && IsNewestGeneration(second.value) {
        ok := k.DoCheckpointWithDesiredStage(p, MainReady);
        if !ok {
          return false, false;
        }
      }
      return true, true;
    }

    method HandleMainReady(k: Checkpoint) returns (requeue: bool, ok: bool)
      requires k.client == client
      modifies k, client
      ensures old(Ends(Dispatch(k.inst, MainReady))) == Ends(Continue(k.inst, requeue, ok))
    {
      LookupTick(p, client.cluster, k.inst, client.script);
      var replica := client.GetSet(ReplicaName(k.inst));
      if replica.Error? {
        return false, true;
      }
      if replica.Got? {
        DismissTick(p, client.cluster, k.inst, client.script);
        var r := client.DeleteSet(ReplicaName(k.inst));
        if r.Broken? {
          return false, false;
        }
      }
      ok := k.DoCheckpointWithDesiredStage(p, UpdateFinished);
      requeue := ok;
    }

    method HandleUpdateFinished(k: Checkpoint) returns (requeue: bool, ok: bool)
      requires k.client == client
      modifies k, client
      ensures old(Ends(Dispatch(k.inst, UpdateFinished))) == Ends(Continue(k.inst, requeue, ok))
    {
      ok := k.Delete(p, false);
      requeue := false;
    }

    method DoActionBasedOnCheckpoint(k: Checkpoint) returns (requeue: bool, ok: bool)
      requires k.client == client
      modifies k, client
      ensures old(Ends(Dispatch(k.inst, k.currentStage))) == Ends(Continue(k.inst, requeue, ok))
    {
      match k.currentStage {
        case UpdateInitiated => requeue, ok := HandleUpdateInitiated(k);
        case ReplicaCreated => requeue, ok := HandleReplicaCreated(k);
        case ReplicaStarting => requeue, ok := HandleReplicaStarting(k);
        case ReplicaReady => requeue, ok := HandleReplicaReady(k);
        case MainShuttingDown => requeue, ok := HandleMainShuttingDown(k);
        case MainReady => requeue, ok := HandleMainReady(k);
        case UpdateFinished => requeue, ok := HandleUpdateFinished(k);
      }
    }

    method OngoingZeroDowntimeUpgrade() returns (ongoing: bool)
      modifies client
      ensures client.cluster == old(client.Ahead()) && client.script == Later(old(client.script))
      ensures ongoing == (Now(old(client.script)).ok && client.cluster.checkpoint.Some?)
    {
      var r := client.GetConfigMap();
      ongoing := r.Got?;
    }

    /** The loop over the nodes, with its three early exits. */
    method DoesNodesUpdateChangeStatefulSetSpec(inst: Instance) returns (restart: bool, ok: bool)
      modifies client
      ensures var result := if !ok then SearchFailed else if restart then RestartSeen else NoneSeen;
              Search(result, client.cluster, client.script)
              == Searched(p, inst, old(client.cluster), old(client.script), 0)
      ensures !ok ==> !restart
    {
      var nodes := AllNodes(inst);
      var i := 0;
      while i < |nodes|
        invariant 0 <= i <= |nodes|
        invariant Searched(p, inst, old(client.cluster), old(client.script), 0)
               == Searched(p, inst, client.cluster, client.script, i)
      {
        var x := client.GetSet(nodes[i].name);
        if x.NotFound? {
          return false, true;
        }
        if x.Error? {
          return false, false;
        }
        if NeedsRestart(p, nodes[i], x.value) {
          return true, true;
        }
        i := i + 1;
      }
      return false, true;
    }

    method PerformZeroDowntimeUpgradeOrRequeue(inst: Instance, ongoing: bool) returns (requeue: bool, ok: bool)
      modifies client
      ensures old(Ends(Detect(inst, ongoing, 0))) == Ends(Continue(inst, requeue, ok))
    {
      SearchEnds(p, inst, ongoing, client.cluster, client.script, 0);
      var restart, detected := DoesNodesUpdateChangeStatefulSetSpec(inst);
      if !detected {
        return false, true;
      }
      if restart || ongoing {
        var k := new Checkpoint(client, inst);
        ok := k.UpdateStageFromConfigMap(p);
        if !ok {
          return false, false;
        }
        requeue, ok := DoActionBasedOnCheckpoint(k);
      } else {
        return false, true;
      }
    }

    method ReconcileStatefulSetBeforeCreateOrUpdate(inst: Instance, x: Target) returns (r: HookReply)
      requires Valid(inst, x)
      modifies client
      ensures old(Ends(HookPoint(inst, x))) == Ends(AfterHook(inst, x, r))
    {
      var node := NodeOf(inst, x);
      HookTick(p, client.cluster, inst, x, client.script);
      var existing := client.GetSet(node.name);
      if existing.NotFound? {
        return Proceed;
      }
      if existing.Error? {
        return HookFailed;
      }
      if !Drifted(node, existing.value) {
        return Proceed;
      }
      if !inst.allowRecreate {
        return HookBlocked;
      }
      RemoveTick(p, client.cluster, inst, x, client.script);
      var d := client.DeleteSet(node.name);
      if d.Broken? {
        return HookFailed;
      }
      if d.Missing? {
        return Proceed;
      }
      RecheckTick(p, client.cluster, inst, x, client.script);
      var again := client.GetSet(node.name);
      // any failure of this read counts as "gone"
      return if again.Got? then Requeue else Proceed;
    }

    /** One object of `reconcileCreateOrUpdate`: the hook, then the write. */
    method ReconcileOne(inst: Instance, x: Target) returns (written: bool, r: HookReply)
      requires Valid(inst, x)
      modifies client
      ensures r.Proceed? <==> written
      ensures old(Ends(HookPoint(inst, x)))
           == Ends(if written then AfterWrite(inst, x) else AfterHook(inst, x, r))
    {
      r := ReconcileStatefulSetBeforeCreateOrUpdate(inst, x);
      if !r.Proceed? {
        return false, r;
      }
      WriteTick(p, client.cluster, inst, x, client.script);
      var w := client.CreateOrUpdateSet(p, RoleOf(x), NodeOf(inst, x));
      match w {
        case Done => written := true;
        case Refused => return false, HookBlocked;
        case _ => return false, HookFailed;
      }
    }

    method ReconcileSupport(inst: Instance) returns (r: HookReply)
      modifies client
      ensures old(Ends(Support(inst))) == Ends(NextBuilder(inst, 0, r))
    {
      MainTick(p, client.cluster, Support(inst), client.script);
      var ok := client.WriteSupport(inst.support);
      r := if ok then Proceed else HookFailed;
    }

    method ReconcileMain(inst: Instance) returns (r: HookReply)
      modifies client
      ensures old(Ends(MainHook(inst))) == Ends(NextBuilder(inst, 1, r))
    {
      var written;
      written, r := ReconcileOne(inst, MainTarget);
    }

    method ReconcileSecondaries(inst: Instance) returns (r: HookReply)
      modifies client
      ensures old(Ends(NodePoint(inst, 0))) == Ends(NextBuilder(inst, 2, r))
    {
      var j := 0;
      r := Proceed;
      while j < |inst.secondaries|
        invariant 0 <= j <= |inst.secondaries| && r.Proceed?
        invariant old(Ends(NodePoint(inst, 0))) == Ends(NodePoint(inst, j))
      {
        var written, answer := ReconcileOne(inst, NodeTarget(j));
        if !written {
          return answer;
        }
        j := j + 1;
      }
    }

    method ReconcileCreateOrUpdate(inst: Instance, b: Builder) returns (r: HookReply)
      modifies client
      ensures old(Ends(ObjectPoint(inst, b))) == Ends(NextBuilder(inst, BuilderNumber(b), r))
    {
      match b {
        case SupportBuilders => r := ReconcileSupport(inst);
        case StatefulSetBuilder => r := ReconcileMain(inst);
        case SecondaryStatefulSetBuilder => r := ReconcileSecondaries(inst);
      }
    }

    /** The listed secondaries that the spec no longer names. */
    method GetObsoleteObjects(inst: Instance) returns (ok: bool, names: set<string>)
      modifies client
      ensures old(Ends(Obsolete(inst)))
           == Ends(if !ok then Rest(Failed) else if names == {} then AfterPrune(inst) else Prune(inst, names))
      ensures client.cluster == old(client.Ahead()) && ok == Now(old(client.script)).ok
      ensures names == ObsoleteNames(client.cluster, inst)
    {
      GateTick(p, client.cluster, Obsolete(inst), client.script);
      var listed;
      ok, listed := client.ListSecondaries();
      names := {};
      var rest := listed;
      while rest != {}
        invariant rest <= listed
        invariant names == set n | n in listed && n !in rest && NodeNamed(inst.secondaries, n).None?
      {
        var n := Ordering.First(rest);
        if NodeNamed(inst.secondaries, n).None? {
          names := names + {n};
        }
        rest := rest - {n};
      }
      assert names == ObsoleteNames(client.cluster, inst) by {
        forall n ensures NodeNamed(inst.secondaries, n).None? <==> n !in SecondaryNames(inst) {
          NamedIffListed(inst, n);
        }
      }
    }

    method ReconcileDelete(inst: Instance) returns (ok: bool)
      modifies client
      ensures old(Ends(Obsolete(inst))) == Ends(if ok then AfterPrune(inst) else Rest(Failed))
    {
      var names;
      ok, names := GetObsoleteObjects(inst);
      if !ok {
        return false;
      }
      while names != {}
        invariant old(Ends(Obsolete(inst))) == Ends(if names == {} then AfterPrune(inst) else Prune(inst, names))
      {
        var name := Ordering.First(names);
        GateTick(p, client.cluster, Prune(inst, names), client.script);
        var r := client.DeleteSet(name);
        if !r.Done? {
          return false;
        }
        names := names - {name};
      }
    }

    /** Failed reads count as "not settled" here, and as "no upgrade" at the checkpoint. */
    method ValidatePreconditions(inst: Instance) returns (satisfied: bool)
      modifies client
      ensures old(Ends(AfterPrune(inst)))
           == Ends(if |inst.secondaries| == 0 then LastCheck(inst)
                   else if satisfied then NodeHook(inst, 0) else Rest(Requeued))
      // three reads, one after the other: the generation, the revisions, the checkpoint
      ensures satisfied <==>
                |inst.secondaries| == 0 ||
                (&& NewestSeen(inst, old(client.cluster), old(client.script))
                 && FinishedSeen(inst, old(client.cluster), old(client.script))
                 && !UpgradeSeen(old(client.cluster), old(client.script)))
    {
      ghost var c, script := client.cluster, client.script;
      if |inst.secondaries| > 0 {
        GateTick(p, client.cluster, GateGeneration(inst), client.script);
        var first := client.GetSet(inst.main.name);
        assert client.cluster == Found(c, script, 0) && client.script == After(script, 1);
        var newest := first.Got? && IsNewestGeneration(first.value);
        assert newest == NewestSeen(inst, c, script);
        GateTick(p, client.cluster, GateRevision(inst, newest), client.script);
        var second := client.GetSet(inst.main.name);
        assert client.cluster == Found(c, script, 1) && client.script == After(script, 2);
        var updated := second.Got? && IsUpdateFinished(second.value);
        assert updated == FinishedSeen(inst, c, script);
        GateTick(p, client.cluster, GateOngoing(inst, newest && updated), client.script);
        var ongoing := OngoingZeroDowntimeUpgrade();
        assert ongoing == UpgradeSeen(c, script);
        satisfied := newest && updated && !ongoing;
      } else {
        satisfied := true;
      }
    }

    /** The checkpoint is dropped if one can be read; the finalizer goes in any case. */
    method FinalizeTeamCity(inst: Instance) returns (ok: bool)
      modifies client
      ensures old(Ends(FinalOngoing(inst))) == Ends(if ok then FinalRelease(inst) else Rest(Failed))
    {
      FinalizerTick(p, client.cluster, FinalOngoing(inst), client.script);
      var ongoing := OngoingZeroDowntimeUpgrade();
      ok := true;
      if ongoing {
        var k := new Checkpoint(client, inst);
        ok := k.Delete(p, true);
      }
    }

    /** One builder of the pass: obsolete objects, preconditions, then creation and update. */
    method ReconcileBuilder(inst: Instance, k: nat) returns (goOn: bool, outcome: Outcome)
      requires k < |ResourceBuilders()|
      modifies client
      ensures old(Ends(BuilderPoint(inst, k))) == Ends(if goOn then BuilderPoint(inst, k + 1) else Rest(outcome))
    {
      outcome := Failed;
      var b := ResourceBuilders()[k];
      if b.SecondaryStatefulSetBuilder? {
        var ok := ReconcileDelete(inst);
        if !ok {
          return false, Failed;
        }
        var satisfied := ValidatePreconditions(inst);
        if !satisfied {
          return false, Requeued;
        }
      }
      var r := ReconcileCreateOrUpdate(inst, b);
      goOn := !r.HookFailed? && !r.HookBlocked?;
      outcome := if r.HookBlocked? then Blocked else Failed;
    }

    /** One pass, whatever the script does to it: what comes out is what the small steps say. */
    method Reconcile() returns (outcome: Outcome)
      modifies client
      ensures (System(client.cluster, Rest(outcome)), client.script)
           == ScriptedPass(p, old(client.cluster), old(client.script))
    {
      var tc := client.GetTeamCity();
      if tc.NotFound? {
        return Finished;
      }
      if tc.Error? {
        return Failed;
      }
      var inst := tc.value;
      if inst.deleting {
        var ok := FinalizeTeamCity(inst);
        if !ok {
          return Failed;
        }
        FinalizerTick(p, client.cluster, FinalRelease(inst), client.script);
        ok := client.ReleaseTeamCity();
        return if ok then Finished else Failed;
      }
      assert ScriptedPass(p, old(client.cluster), old(client.script)) == Ends(ReadOngoing(inst));
      DetectionTick(p, client.cluster, ReadOngoing(inst), client.script);
      var ongoing := OngoingZeroDowntimeUpgrade();
      if inst.zeroDowntime || ongoing {
        var requeue, ok := PerformZeroDowntimeUpgradeOrRequeue(inst, ongoing);
        if !ok {
          return Failed;
        }
        if requeue {
          return Requeued;
        }
      }
      var k := 0;
      while k < |ResourceBuilders()|
        invariant 0 <= k <= |ResourceBuilders()|
        invariant ScriptedPass(p, old(client.cluster), old(client.script)) == Ends(BuilderPoint(inst, k))
      {
        var goOn, end := ReconcileBuilder(inst, k);
        if !goOn {
          return end;
        }
        k := k + 1;
      }
      NodeTick(p, client.cluster, LastCheck(inst), client.script);
      ongoing := OngoingZeroDowntimeUpgrade();
      return if ongoing then Requeued else Finished;
    }
  }
}
