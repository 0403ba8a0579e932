/** What successful calls do to the secondaries of a spec, one after the other, as long as no service
    name has to change. */
module Placing {
  import opened PodTree
  import opened PodTemplate
  import opened Stages
  import opened Cluster
  import opened Protocol
  import opened Passes

  /** What is there under the name of secondary `j` carries its service name. */
  predicate InLine(inst: Instance, c: Cluster, j: nat)
    requires j < |inst.secondaries|
  {
    var node := NodeAt(inst, j);
    node.name in c.sets ==> c.sets[node.name].serviceName == node.serviceName
  }

  predicate InPlace(p: Platform, inst: Instance, c: Cluster, j: nat)
    requires j < |inst.secondaries|
  {
    var node := NodeAt(inst, j);
    node.name in c.sets && p.write(node.desired, c.sets[node.name].template) == c.sets[node.name].template
  }

  function PlaceOne(p: Platform, c: Cluster, node: Node): Cluster {
    var r := Apply(p, c, SecondaryRole, node);
    if r.Some? then r.value else c
  }

  /** The cluster after the secondaries `j` to `k - 1` were written. */
  function Placed(p: Platform, inst: Instance, c: Cluster, j: nat, k: nat): Cluster
    requires j <= k <= |inst.secondaries|
    decreases k - j
  {
    if j == k then c else Placed(p, inst, PlaceOne(p, c, NodeAt(inst, j)), j + 1, k)
  }

  function NamesBetween(inst: Instance, j: nat, k: nat): set<string>
    requires k <= |inst.secondaries|
  {
    set m | j <= m < k :: inst.secondaries[m].name
  }

  predicate SameAt(c: Cluster, d: Cluster, n: string) {
    (n in d.sets <==> n in c.sets) && (n in c.sets ==> d.sets[n] == c.sets[n])
  }

  /** From `c` to `d` StatefulSets may be rewritten, and new ones made under some of `names`. */
  ghost predicate Rewrites(c: Cluster, d: Cluster, names: set<string>) {
    && d == c.(sets := d.sets, nextUid := d.nextUid)
    && (forall n | n in c.sets :: n in d.sets && SameButTemplate(c.sets[n], d.sets[n]))
    && (forall n | n !in names :: SameAt(c, d, n))
  }

  predicate SameButTemplate(x: StatefulSet, y: StatefulSet) {
    y == x.(template := y.template, generation := y.generation) && x.generation <= y.generation
  }

  lemma PlacingOne(p: Platform, inst: Instance, c: Cluster, j: nat)
    requires j < |inst.secondaries| && InLine(inst, c, j)
    ensures var d := PlaceOne(p, c, NodeAt(inst, j));
            && Apply(p, c, SecondaryRole, NodeAt(inst, j)) == Some(d)
            && Rewrites(c, d, {inst.secondaries[j].name})
            && (WriteSettles(p) ==> InPlace(p, inst, d, j))
  {
  }

  /** One name is looked up in one way, so nothing else gets out of line or out of place. */
  lemma PlacingOneKeeps(p: Platform, inst: Instance, c: Cluster, j: nat, m: nat)
    requires j < |inst.secondaries| && m < |inst.secondaries| && InLine(inst, c, j)
    ensures var d := PlaceOne(p, c, NodeAt(inst, j));
            && (InLine(inst, c, m) ==> InLine(inst, d, m))
            && (WriteSettles(p) && InPlace(p, inst, c, m) ==> InPlace(p, inst, d, m))
  {
    if inst.secondaries[m].name == inst.secondaries[j].name {
      assert NodeAt(inst, m) == NodeAt(inst, j);
    }
  }

  lemma RewritesCompose(c: Cluster, d: Cluster, e: Cluster, a: set<string>, b: set<string>, names: set<string>)
    requires Rewrites(c, d, a) && Rewrites(d, e, b) && a <= names && b <= names
    ensures Rewrites(c, e, names)
  {
    forall n | n !in names ensures SameAt(c, e, n) {
      assert SameAt(c, d, n) && SameAt(d, e, n);
    }
    forall n | n in c.sets ensures n in e.sets && SameButTemplate(c.sets[n], e.sets[n]) {
      assert n in d.sets && SameButTemplate(c.sets[n], d.sets[n]);
    }
  }

  lemma {:induction false} PlacingRewrites(p: Platform, inst: Instance, c: Cluster, j: nat, k: nat)
    requires j <= k <= |inst.secondaries| && forall m | j <= m < k :: InLine(inst, c, m)
    ensures Rewrites(c, Placed(p, inst, c, j, k), NamesBetween(inst, j, k))
    decreases k - j
  {
    if j < k {
      var d := PlaceOne(p, c, NodeAt(inst, j));
      PlacingOne(p, inst, c, j);
      forall m | j + 1 <= m < k ensures InLine(inst, d, m) {
        PlacingOneKeeps(p, inst, c, j, m);
      }
      PlacingRewrites(p, inst, d, j + 1, k);
      assert inst.secondaries[j].name in NamesBetween(inst, j, k);
      RewritesCompose(c, d, Placed(p, inst, d, j + 1, k), {inst.secondaries[j].name}, NamesBetween(inst, j + 1, k),
                      NamesBetween(inst, j, k));
    }
  }

  /** Whatever is in place before or gets its turn is in place afterwards. */
  lemma {:induction false} PlacingPlaces(p: Platform, inst: Instance, c: Cluster, j: nat, k: nat, i: nat)
    requires WriteSettles(p) && j <= k <= |inst.secondaries| && forall m | j <= m < k :: InLine(inst, c, m)
    requires i < |inst.secondaries| && (j <= i < k || InPlace(p, inst, c, i))
    ensures InPlace(p, inst, Placed(p, inst, c, j, k), i)
    decreases k - j
  {
    if j < k {
      var d := PlaceOne(p, c, NodeAt(inst, j));
      PlacingOne(p, inst, c, j);
      forall m | j + 1 <= m < k ensures InLine(inst, d, m) {
        PlacingOneKeeps(p, inst, c, j, m);
      }
      PlacingOneKeeps(p, inst, c, j, i);
      PlacingPlaces(p, inst, d, j + 1, k, i);
    }
  }

  // ---- The calls ----

  lemma PlaceCalls(p: Platform, inst: Instance, c: Cluster, j: nat)
    requires j < |inst.secondaries| && InLine(inst, c, j)
    ensures Becomes(p, System(c, NodeHook(inst, j)), System(PlaceOne(p, c, NodeAt(inst, j)), NodePoint(inst, j + 1)))
  {
    var s, t := System(c, NodeHook(inst, j)), System(c, NodeWrite(inst, j));
    var u := System(PlaceOne(p, c, NodeAt(inst, j)), NodePoint(inst, j + 1));
    CallByGroup(p, s, true);
    CallByGroup(p, t, true);
    BecomesAtOnce(p, u);
    BecomesNext(p, t, u);
    BecomesNext(p, s, u);
  }

  lemma PlaceThen(p: Platform, inst: Instance, c: Cluster, j: nat, goal: System)
    requires j < |inst.secondaries| && InLine(inst, c, j)
    requires Becomes(p, System(PlaceOne(p, c, NodeAt(inst, j)), NodePoint(inst, j + 1)), goal)
    ensures Becomes(p, System(c, NodeHook(inst, j)), goal)
  {
    PlaceCalls(p, inst, c, j);
    BecomesThen(p, System(c, NodeHook(inst, j)), System(PlaceOne(p, c, NodeAt(inst, j)), NodePoint(inst, j + 1)), goal);
  }

  lemma PlacedStep(p: Platform, inst: Instance, c: Cluster, j: nat, k: nat)
    requires j < k <= |inst.secondaries|
    ensures Placed(p, inst, c, j, k) == Placed(p, inst, PlaceOne(p, c, NodeAt(inst, j)), j + 1, k)
  {
  }

  /** From secondary `j` to secondary `k`, or to the end of the pass. */
  lemma {:induction false} PlacedCalls(p: Platform, inst: Instance, c: Cluster, j: nat, k: nat, goal: System)
    requires j <= k <= |inst.secondaries| && forall m | j <= m < k :: InLine(inst, c, m)
    requires goal == System(Placed(p, inst, c, j, k), NodePoint(inst, k))
    ensures Becomes(p, System(c, NodePoint(inst, j)), goal)
    decreases k - j
  {
    if j == k {
      BecomesAtOnce(p, goal);
    } else {
      PlacedStep(p, inst, c, j, k);
      var d := PlaceOne(p, c, NodeAt(inst, j));
      forall m | j + 1 <= m < k ensures InLine(inst, d, m) {
        PlacingOneKeeps(p, inst, c, j, m);
      }
      PlacedCalls(p, inst, d, j + 1, k, goal);
      PlaceThen(p, inst, c, j, goal);
    }
  }
}
