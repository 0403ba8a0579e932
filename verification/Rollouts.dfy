/** How far one StatefulSet is from running its stored template. */
module Rollouts {
  import opened PodTree
  import opened PodTemplate
  import opened Stages
  import opened Cluster
  import opened Protocol

  /** A StatefulSet that is not being deleted, anywhere in a rollout. */
  predicate Tame(x: StatefulSet) {
    && !x.terminating
    && 0 < x.generation && x.observed <= x.generation
    && (x.observed == 0 ==> !x.ready)
    && (IsNewestGeneration(x) ==> x.update == x.template)
  }

  /** Its status lags behind, but does not speak of a template that the pod has left again. */
  predicate Sane(x: StatefulSet) {
    && Tame(x)
    && (x.ready && x.current == x.update ==> x.pod == x.update)
    && (x.current == x.template ==> x.update == x.template)
  }

  /** What the controller and the kubelet have left to do: a deletion, or a look at the latest
      generation, the pod down, up again, and the promotion of its revision. */
  function Work(x: StatefulSet): (n: nat)
    ensures n <= 5
  {
    if x.terminating then 5
    else if !IsNewestGeneration(x) then 4
    else if !x.ready then 2
    else if x.pod != x.template then 3
    else if x.current != x.template then 1
    else 0
  }

  /** The step that `x` waits for. */
  function NextEvent(name: string, x: StatefulSet): Event {
    if x.terminating then Vanish(name)
    else if !IsNewestGeneration(x) then Observe(name)
    else if !x.ready then PodUp(name)
    else if x.pod != x.template then PodDown(name)
    else Promote(name)
  }

  lemma NoWorkIsSettled(x: StatefulSet)
    requires Sane(x)
    ensures Work(x) == 0 <==> Settled(x) && IsNewestGeneration(x)
    ensures Work(x) == 0 ==> IsUpdateFinished(x)
    ensures IsNewestGeneration(x) && IsUpdateFinished(x) ==> Work(x) == 0
  {
  }

  /** No step of the cluster adds to the work, and the awaited one takes some away. */
  lemma EventsHelp(c: Cluster, n: string, e: Event)
    requires n in c.sets && Tame(c.sets[n]) && !e.Edit? && !e.PodFailure?
    ensures var d := Happen(c, e);
            && n in d.sets && Tame(d.sets[n])
            && d.sets[n].template == c.sets[n].template
            && Work(d.sets[n]) <= Work(c.sets[n])
            && (0 < Work(c.sets[n]) && e == NextEvent(n, c.sets[n]) ==> Work(d.sets[n]) < Work(c.sets[n]))
  {
  }

  lemma EventsStaySane(c: Cluster, n: string, e: Event)
    requires n in c.sets && Sane(c.sets[n]) && !e.Edit? && !e.PodFailure?
    ensures var d := Happen(c, e);
            && n in d.sets && Sane(d.sets[n])
            && d.sets[n].current in {c.sets[n].current, c.sets[n].update, c.sets[n].template}
            && d.sets[n].update in {c.sets[n].update, c.sets[n].template}
  {
  }

  /** What waits for nothing stays as it is. */
  lemma EventsIdle(c: Cluster, n: string, e: Event)
    requires n in c.sets && Tame(c.sets[n]) && !e.Edit? && !e.PodFailure?
    requires Work(c.sets[n]) == 0 && c.sets[n].current == c.sets[n].update
    ensures n in Happen(c, e).sets && Happen(c, e).sets[n] == c.sets[n]
  {
  }

  lemma StoreIsSane(x: StatefulSet, t: Template)
    requires Sane(x) && (t == x.template || t !in {x.current, x.update})
    ensures Sane(Store(x, t))
    ensures t != x.template ==> Work(Store(x, t)) == 4
  {
  }
}
