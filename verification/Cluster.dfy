/** The part of a Kubernetes namespace that the operator reads and writes, and what the rest of the
    cluster does to it between two calls of the operator. */
module Cluster {
  import opened PodTree
  import opened PodTemplate
  import opened Stages

  datatype Role = MainRole | SecondaryRole | ReplicaRole

  /** One StatefulSet with a single pod. `current`, `update`, `observed` and `ready` are its status;
      `pod` is the template that the pod was started from. A revision name is a hash of a template,
      so a revision is represented by its template. */
  datatype StatefulSet = StatefulSet(
    role: Role,
    uid: nat,
    serviceName: string,
    template: Template,
    generation: nat,
    observed: nat,
    current: Template,
    update: Template,
    pod: Template,
    ready: bool,
    terminating: bool)

  datatype Node = Node(name: string, desired: Template, serviceName: string)

  /** The TeamCity object. `support` is the desired state of everything that is not a StatefulSet. */
  datatype Instance = Instance(
    zeroDowntime: bool,
    allowRecreate: bool,
    deleting: bool,
    main: Node,
    secondaries: seq<Node>,
    support: Tree)

  datatype Cluster = Cluster(
    teamcity: Option<Instance>,
    checkpoint: Option<Stage>,
    support: Tree,
    sets: map<string, StatefulSet>,
    nextUid: nat)

  /** How a desired template is merged into a stored one, when the detector fires, and what the
      update replica is made of: the main node's stored template and variables of the instance. */
  datatype Platform = Platform(
    write: (Template, Template) -> Template,
    detect: (Template, Template) -> bool,
    blank: Template,
    replica: (Instance, Template) -> Template)

  /** Writing a template twice is writing it once. */
  ghost predicate WriteSettles(p: Platform) {
    forall d, t :: p.write(d, p.write(d, t)) == p.write(d, t)
  }

  function ReplicaOf(main: string): (name: string)
    ensures |name| > |main|
  {
    main + "-update-replica"
  }

  function ReplicaName(inst: Instance): (name: string) {
    ReplicaOf(inst.main.name)
  }

  lemma ReplicaNameIsNotMain(inst: Instance)
    ensures ReplicaName(inst) != inst.main.name
  {
  }

  function AllNodes(inst: Instance): (nodes: seq<Node>) {
    inst.secondaries + [inst.main]
  }

  function SecondaryNames(inst: Instance): set<string> {
    set i | 0 <= i < |inst.secondaries| :: inst.secondaries[i].name
  }

  /** What the builders take for granted: the StatefulSets of the spec have different names. */
  predicate DistinctNames(inst: Instance) {
    && (forall i, j | 0 <= i < j < |inst.secondaries| :: inst.secondaries[i].name != inst.secondaries[j].name)
    && (forall i | 0 <= i < |inst.secondaries| :: inst.secondaries[i].name !in {inst.main.name, ReplicaName(inst)})
  }

  /** The generation the controller has seen is the latest one. */
  predicate IsNewestGeneration(x: StatefulSet) {
    x.generation == x.observed
  }

  predicate IsUpdateFinished(x: StatefulSet) {
    x.current == x.update && x.ready
  }

  /** Rolled out: the pod runs the stored template, is ready, and the status says so. */
  predicate Settled(x: StatefulSet) {
    && x.ready
    && x.pod == x.template
    && x.current == x.template
    && x.update == x.template
    && !x.terminating
  }

  /** The controller has something to replace, or the pod is down. */
  predicate Restarting(x: StatefulSet) {
    !x.ready || x.update != x.pod || x.template != x.update
  }

  function NewSet(role: Role, uid: nat, serviceName: string, template: Template): StatefulSet {
    StatefulSet(role, uid, serviceName, template, 1, 0, template, template, template, false, false)
  }

  /** Storing a changed template raises the generation; storing the same one is no write at all. */
  function Store(x: StatefulSet, template: Template): StatefulSet {
    if template == x.template then x else x.(template := template, generation := x.generation + 1)
  }

  function MarkTerminating(x: StatefulSet): StatefulSet {
    if x.terminating then x else x.(terminating := true, generation := x.generation + 1)
  }

  // ---- What happens without the operator ----

  datatype Event =
    | Observe(name: string)
    | PodDown(name: string)
    | PodUp(name: string)
    | Promote(name: string)
    | PodFailure(name: string)
    | Vanish(name: string)
    | Edit(inst: Instance)

  /** The StatefulSet controller, the kubelet and the user. An event that is not possible in a
      state leaves the state as it is. */
  function Happen(c: Cluster, e: Event): Cluster {
    match e
    case Edit(inst) => if c.teamcity.None? then c else c.(teamcity := Some(inst))
    case Vanish(n) => if n in c.sets && c.sets[n].terminating then c.(sets := c.sets - {n}) else c
    case Observe(n) =>
      if n in c.sets then c.(sets := c.sets[n := Observed(c.sets[n])]) else c
    case PodDown(n) =>
      if n in c.sets && (c.sets[n].update != c.sets[n].pod || c.sets[n].terminating)
      then c.(sets := c.sets[n := c.sets[n].(ready := false)]) else c
    case PodUp(n) =>
      if n in c.sets && !c.sets[n].ready && !c.sets[n].terminating && c.sets[n].observed > 0
      then c.(sets := c.sets[n := c.sets[n].(ready := true, pod := c.sets[n].update)]) else c
    case Promote(n) =>
      if n in c.sets && c.sets[n].ready && c.sets[n].pod == c.sets[n].update
      then c.(sets := c.sets[n := c.sets[n].(current := c.sets[n].update)]) else c
    case PodFailure(n) =>
      if n in c.sets then c.(sets := c.sets[n := c.sets[n].(ready := false)]) else c
  }

  function Observed(x: StatefulSet): StatefulSet {
    if x.observed == 0
    then x.(observed := x.generation, current := x.template, update := x.template)
    else x.(observed := x.generation, update := x.template)
  }

  function HappenAll(c: Cluster, es: seq<Event>): Cluster
    decreases |es|
  {
    if es == [] then c else HappenAll(Happen(c, es[0]), es[1..])
  }
}
