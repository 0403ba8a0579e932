/** What whole undisturbed passes do to the secondaries, for any list of them, with names repeated or
    not: one brings them to the spec, and the next has nothing left to do. */
module Convergence {
  import opened PodTree
  import opened PodTemplate
  import opened Stages
  import opened Cluster
  import opened Protocol
  import opened Passes
  import opened Placing
  import opened Detection
  import opened StageProtocol
  import opened Rollouts
  import Ordering

  // ---- Obsolete secondaries ----

  function Pruned(c: Cluster, names: set<string>): Cluster {
    c.(sets := map n | n in c.sets :: if n in names then MarkTerminating(c.sets[n]) else c.sets[n])
  }

  lemma {:induction false} PruneCalls(p: Platform, inst: Instance, c: Cluster, rest: set<string>)
    requires rest != {} && rest <= c.sets.Keys
    ensures Becomes(p, System(c, Prune(inst, rest)), System(Pruned(c, rest), AfterPrune(inst)))
    decreases |rest|
  {
    var s := System(c, Prune(inst, rest));
    var name := Ordering.First(rest);
    var d := Remove(c, name);
    CallByGroup(p, s, true);
    if rest == {name} {
      assert Pruned(c, rest).sets == d.sets;
      BecomesAtOnce(p, System(d, AfterPrune(inst)));
    } else {
      assert rest - {name} != {};
      PruneCalls(p, inst, d, rest - {name});
      assert Pruned(d, rest - {name}).sets == Pruned(c, rest).sets;
    }
    BecomesNext(p, s, System(Pruned(c, rest), AfterPrune(inst)));
  }

  // ---- The secondaries of the spec ----

  /** What is there under a secondary's name is that secondary, with its service name, and stays. */
  predicate Fits(inst: Instance, c: Cluster) {
    forall j | 0 <= j < |inst.secondaries| && inst.secondaries[j].name in c.sets ::
      var x := c.sets[inst.secondaries[j].name];
      x.role == SecondaryRole && x.serviceName == NodeAt(inst, j).serviceName && !x.terminating
  }

  lemma FitsInLine(inst: Instance, c: Cluster, j: nat)
    requires Fits(inst, c) && j < |inst.secondaries|
    ensures InLine(inst, c, j)
  {
  }

  /** From `c` to `d` only secondaries of the spec are made or rewritten. */
  predicate OnlySecondaries(inst: Instance, c: Cluster, d: Cluster) {
    && d == c.(sets := d.sets, nextUid := d.nextUid)
    && (forall n | n in c.sets :: n in d.sets && d.sets[n].role == c.sets[n].role)
    && (forall n | n in c.sets :: d.sets[n].terminating == c.sets[n].terminating)
    && (forall n | n in c.sets && n !in SecondaryNames(inst) :: d.sets[n] == c.sets[n])
    && (forall n | n in d.sets && n !in c.sets :: n in SecondaryNames(inst))
  }

  lemma PlacingFits(p: Platform, inst: Instance, c: Cluster, j: nat)
    requires Fits(inst, c) && j < |inst.secondaries|
    ensures Fits(inst, PlaceOne(p, c, NodeAt(inst, j)))
  {
    var node := NodeAt(inst, j);
    var d := PlaceOne(p, c, node);
    forall k | 0 <= k < |inst.secondaries| && inst.secondaries[k].name in d.sets
      ensures d.sets[inst.secondaries[k].name].role == SecondaryRole
      ensures d.sets[inst.secondaries[k].name].serviceName == NodeAt(inst, k).serviceName
      ensures !d.sets[inst.secondaries[k].name].terminating
    {
      if inst.secondaries[k].name == node.name {
        assert NodeAt(inst, k) == node;
      }
    }
  }

  lemma {:induction false} PlacedFits(p: Platform, inst: Instance, c: Cluster, j: nat, k: nat)
    requires Fits(inst, c) && j <= k <= |inst.secondaries|
    ensures Fits(inst, Placed(p, inst, c, j, k))
    decreases k - j
  {
    if j < k {
      PlacingFits(p, inst, c, j);
      PlacedFits(p, inst, PlaceOne(p, c, NodeAt(inst, j)), j + 1, k);
    }
  }

  /** All secondaries of the spec are written in their turn. */
  function AllPlaced(p: Platform, inst: Instance, c: Cluster): Cluster {
    Placed(p, inst, c, 0, |inst.secondaries|)
  }

  lemma PlacedKeeps(p: Platform, inst: Instance, c: Cluster)
    requires WriteSettles(p) && Fits(inst, c)
    ensures var d := AllPlaced(p, inst, c);
            && Fits(inst, d) && OnlySecondaries(inst, c, d)
            && (forall k | 0 <= k < |inst.secondaries| :: InPlace(p, inst, d, k))
  {
    var k, d := |inst.secondaries|, AllPlaced(p, inst, c);
    PlacedFits(p, inst, c, 0, k);
    forall m | 0 <= m < k ensures InLine(inst, c, m) {
      FitsInLine(inst, c, m);
    }
    PlacingRewrites(p, inst, c, 0, k);
    assert NamesBetween(inst, 0, k) == SecondaryNames(inst);
    assert forall n | n in c.sets :: n in d.sets && SameButTemplate(c.sets[n], d.sets[n]);
    assert forall n | n !in SecondaryNames(inst) :: SameAt(c, d, n);
    forall i | 0 <= i < k ensures InPlace(p, inst, d, i) {
      PlacingPlaces(p, inst, c, 0, k, i);
    }
  }

  // ---- The gate ----

  /** The main node is what the spec asks for and is rolled out, and no upgrade is under way. */
  predicate GateOpen(p: Platform, inst: Instance, c: Cluster) {
    && inst.main.name in c.sets && c.checkpoint.None?
    && var x := c.sets[inst.main.name];
    && x.role == MainRole && x.serviceName == inst.main.serviceName
    && p.write(inst.main.desired, x.template) == x.template
    && Settled(x) && IsNewestGeneration(x) && 0 < x.generation
  }

  lemma GateCalls(p: Platform, inst: Instance, c: Cluster)
    requires GateOpen(p, inst, c) && |inst.secondaries| > 0
    ensures Becomes(p, System(c, GateGeneration(inst)), System(c, NodeHook(inst, 0)))
  {
    var s, t := System(c, GateGeneration(inst)), System(c, GateRevision(inst, true));
    var u := System(c, GateOngoing(inst, true));
    CallByGroup(p, s, true);
    CallByGroup(p, t, true);
    CallByGroup(p, u, true);
    BecomesAtOnce(p, System(c, NodeHook(inst, 0)));
    BecomesNext(p, u, System(c, NodeHook(inst, 0)));
    BecomesNext(p, t, System(c, NodeHook(inst, 0)));
    BecomesNext(p, s, System(c, NodeHook(inst, 0)));
  }

  /** The cluster after the part of a pass that deals with the secondaries. */
  function Tidied(p: Platform, inst: Instance, c: Cluster): Cluster {
    AllPlaced(p, inst, Pruned(c, ObsoleteNames(c, inst)))
  }

  lemma PrunedIsReady(p: Platform, inst: Instance, c: Cluster)
    requires GateOpen(p, inst, c) && Fits(inst, c)
    ensures var d := Pruned(c, ObsoleteNames(c, inst)); GateOpen(p, inst, d) && Fits(inst, d)
  {
    var d := Pruned(c, ObsoleteNames(c, inst));
    assert forall j | 0 <= j < |inst.secondaries| :: inst.secondaries[j].name in SecondaryNames(inst);
    assert forall j | 0 <= j < |inst.secondaries| && inst.secondaries[j].name in d.sets ::
      d.sets[inst.secondaries[j].name] == c.sets[inst.secondaries[j].name];
  }

  lemma PlacementCalls(p: Platform, inst: Instance, c: Cluster)
    requires GateOpen(p, inst, c) && Fits(inst, c)
    ensures Becomes(p, System(c, AfterPrune(inst)), System(AllPlaced(p, inst, c), LastCheck(inst)))
  {
    var goal := System(AllPlaced(p, inst, c), LastCheck(inst));
    if |inst.secondaries| > 0 {
      forall m | 0 <= m < |inst.secondaries| ensures InLine(inst, c, m) {
        FitsInLine(inst, c, m);
      }
      PlacedCalls(p, inst, c, 0, |inst.secondaries|, goal);
      GateCalls(p, inst, c);
      BecomesThen(p, System(c, GateGeneration(inst)), System(c, NodeHook(inst, 0)), goal);
    } else {
      BecomesAtOnce(p, goal);
    }
  }

  lemma TidyCalls(p: Platform, inst: Instance, c: Cluster)
    requires GateOpen(p, inst, c) && Fits(inst, c)
    ensures Becomes(p, System(c, Obsolete(inst)), System(Tidied(p, inst, c), LastCheck(inst)))
  {
    var names := ObsoleteNames(c, inst);
    var s, d := System(c, Obsolete(inst)), Pruned(c, names);
    var goal := System(Tidied(p, inst, c), LastCheck(inst));
    PrunedIsReady(p, inst, c);
    PlacementCalls(p, inst, d);
    CallByGroup(p, s, true);
    if names == {} {
      assert d.sets == c.sets;
    } else {
      PruneCalls(p, inst, c, names);
      BecomesThen(p, System(c, Prune(inst, names)), System(d, AfterPrune(inst)), goal);
    }
    BecomesNext(p, s, goal);
  }

  // ---- A whole pass ----

  /** A spec that asks for nothing of the main node, at whatever state of the secondaries. */
  predicate Ready(p: Platform, inst: Instance, c: Cluster) {
    && c.teamcity == Some(inst) && !inst.deleting
    && GateOpen(p, inst, c) && Fits(inst, c)
  }

  /** Where a pass gets that starts no upgrade. */
  function Done(p: Platform, inst: Instance, c: Cluster): Cluster {
    Tidied(p, inst, c.(support := inst.support))
  }

  lemma BuilderEnds(p: Platform, inst: Instance, c: Cluster)
    requires WriteSettles(p) && Ready(p, inst, c)
    ensures Done(p, inst, c).checkpoint.None?
    ensures Becomes(p, System(c, Support(inst)), System(Done(p, inst, c), Rest(Finished)))
  {
    var d := c.(support := inst.support);
    var e := Tidied(p, inst, d);
    var s, goal := System(c, Support(inst)), System(e, Rest(Finished));
    PrunedIsReady(p, inst, d);
    PlacedKeeps(p, inst, Pruned(d, ObsoleteNames(d, inst)));
    BecomesAtOnce(p, goal);
    CallByGroup(p, System(e, LastCheck(inst)), true);
    BecomesNext(p, System(e, LastCheck(inst)), goal);
    TidyCalls(p, inst, d);
    BecomesThen(p, System(d, Obsolete(inst)), System(e, LastCheck(inst)), goal);
    UnchangedMainCalls(p, inst, c);
    BecomesThen(p, s, System(d, Obsolete(inst)), goal);
  }

  /** The pass finds an upgrade to start. */
  predicate Upgrades(p: Platform, inst: Instance, c: Cluster) {
    inst.zeroDowntime && RestartNeeded(p, inst, c)
  }

  /** The undisturbed pass that starts from `c` ends in `t`. */
  ghost predicate PassEnds(p: Platform, c: Cluster, o: Outcome, t: System) {
    t.at.Rest? && Becomes(p, Call(p, System(c, Rest(o)), true), t)
  }

  lemma AfterFirstCall(p: Platform, s: System, t: System)
    requires Becomes(p, s, t) && s != t
    ensures Becomes(p, Call(p, s, true), t)
  {
    var n: nat :| BecomesIn(p, s, t, n);
    var u := Call(p, s, true);
    forall k | 0 < k < n - 1 ensures !Calls(p, u, k).at.Rest? {
      assert Calls(p, u, k) == Calls(p, s, k + 1);
    }
    assert BecomesIn(p, u, t, n - 1);
  }

  lemma PassEndsFrom(p: Platform, inst: Instance, c: Cluster, o: Outcome, t: System)
    requires c.teamcity == Some(inst) && !inst.deleting
    requires t.at.Rest? && Becomes(p, System(c, Opened(p, inst, c)), t)
    ensures PassEnds(p, c, o, t)
  {
    var s, u := System(c, Rest(o)), System(c, Opened(p, inst, c));
    PassOpens(p, inst, c, o);
    AfterFirstCall(p, s, u);
    BecomesThen(p, Call(p, s, true), u, t);
  }

  /** One pass ends in one way. */
  lemma OneEnd(p: Platform, inst: Instance, c: Cluster, o: Outcome, t: System, u: System)
    requires c.teamcity == Some(inst) && !inst.deleting
    requires PassEnds(p, c, o, t) && PassEnds(p, c, o, u)
    ensures t == u
  {
    var s := Call(p, System(c, Rest(o)), true);
    var m: nat :| BecomesIn(p, s, t, m);
    var n: nat :| BecomesIn(p, s, u, n);
    assert Calls(p, s, 0) == s && s.at == ReadOngoing(inst);
    assert !(m < n) && !(n < m);
  }

  lemma PassTidies(p: Platform, inst: Instance, c: Cluster, o: Outcome)
    requires WriteSettles(p) && Ready(p, inst, c) && !Upgrades(p, inst, c)
    ensures PassEnds(p, c, o, System(Done(p, inst, c), Rest(Finished)))
  {
    BuilderEnds(p, inst, c);
    PassEndsFrom(p, inst, c, o, System(Done(p, inst, c), Rest(Finished)));
  }

  /** Afterwards the secondaries of the spec exist and are what the spec asks for, every other one is
      on its way out, and nothing else has changed but the supporting objects. */
  lemma DoneIsReady(p: Platform, inst: Instance, c: Cluster)
    requires WriteSettles(p) && Ready(p, inst, c)
    ensures var d := Done(p, inst, c);
            && Ready(p, inst, d) && d.support == inst.support
            && (forall j | 0 <= j < |inst.secondaries| :: InPlace(p, inst, d, j))
            && (forall n | n in d.sets && d.sets[n].role == SecondaryRole ::
                  n in SecondaryNames(inst) || d.sets[n].terminating)
            && (forall n | n in c.sets && c.sets[n].role != SecondaryRole :: n in d.sets && d.sets[n] == c.sets[n])
  {
    var c' := c.(support := inst.support);
    var b := Pruned(c', ObsoleteNames(c', inst));
    var d := Done(p, inst, c);
    PrunedIsReady(p, inst, c');
    PlacedKeeps(p, inst, b);
    SecondariesAreNotMain(p, inst, b);
    forall n | n in c.sets && c.sets[n].role != SecondaryRole ensures n in d.sets && d.sets[n] == c.sets[n] {
      assert n in b.sets && b.sets[n] == c.sets[n];
    }
  }

  lemma SecondariesAreNotMain(p: Platform, inst: Instance, c: Cluster)
    requires GateOpen(p, inst, c) && Fits(inst, c)
    ensures inst.main.name !in SecondaryNames(inst)
  {
  }

  // ---- The pass after that ----

  /** All that a pass could do has been done. */
  predicate AtGoal(p: Platform, inst: Instance, c: Cluster) {
    && Ready(p, inst, c) && c.support == inst.support
    && (forall j | 0 <= j < |inst.secondaries| :: InPlace(p, inst, c, j))
  }

  lemma EventKeepsGoal(p: Platform, inst: Instance, c: Cluster, e: Event)
    requires AtGoal(p, inst, c) && !e.Edit? && !e.PodFailure?
    ensures AtGoal(p, inst, Happen(c, e))
  {
    var d := Happen(c, e);
    EventsIdle(c, inst.main.name, e);
    forall j | 0 <= j < |inst.secondaries|
      ensures InPlace(p, inst, d, j) && inst.secondaries[j].name in d.sets
      ensures var x, y := c.sets[inst.secondaries[j].name], d.sets[inst.secondaries[j].name];
              y.role == x.role && y.serviceName == x.serviceName && y.terminating == x.terminating
    {
      assert InPlace(p, inst, c, j) && NodeAt(inst, j).name == inst.secondaries[j].name;
    }
  }

  lemma {:induction false} EventsKeepGoal(p: Platform, inst: Instance, c: Cluster, es: seq<Event>)
    requires AtGoal(p, inst, c) && forall i | 0 <= i < |es| :: !es[i].Edit? && !es[i].PodFailure?
    ensures AtGoal(p, inst, HappenAll(c, es))
    decreases |es|
  {
    if es != [] {
      EventKeepsGoal(p, inst, c, es[0]);
      EventsKeepGoal(p, inst, Happen(c, es[0]), es[1..]);
    }
  }

  lemma {:induction false} NothingToPlace(p: Platform, inst: Instance, c: Cluster, j: nat)
    requires Fits(inst, c) && j <= |inst.secondaries|
    requires forall k | 0 <= k < |inst.secondaries| :: InPlace(p, inst, c, k)
    ensures Placed(p, inst, c, j, |inst.secondaries|) == c
    decreases |inst.secondaries| - j
  {
    if j < |inst.secondaries| {
      var node := NodeAt(inst, j);
      assert InPlace(p, inst, c, j);
      assert PlaceOne(p, c, node).sets == c.sets;
      NothingToPlace(p, inst, c, j + 1);
    }
  }

  lemma NothingToDo(p: Platform, inst: Instance, c: Cluster)
    requires AtGoal(p, inst, c) && ObsoleteNames(c, inst) == {}
    ensures Done(p, inst, c) == c
  {
    assert Pruned(c, {}).sets == c.sets;
    NothingToPlace(p, inst, c, 0);
  }

  /** With a checkpoint in place the builder pass stops at its gate. */
  lemma GateStops(p: Platform, inst: Instance, c: Cluster)
    requires GateOpen(p, inst, c.(checkpoint := None)) && c.checkpoint.Some?
    requires ObsoleteNames(c, inst) == {} && |inst.secondaries| > 0
    ensures Becomes(p, System(c, Obsolete(inst)), System(c, Rest(Requeued)))
  {
    var s, t := System(c, Obsolete(inst)), System(c, GateGeneration(inst));
    var u, v := System(c, GateRevision(inst, true)), System(c, GateOngoing(inst, true));
    var goal := System(c, Rest(Requeued));
    BecomesAtOnce(p, goal);
    CallByGroup(p, v, true);
    BecomesNext(p, v, goal);
    CallByGroup(p, u, true);
    BecomesNext(p, u, goal);
    CallByGroup(p, t, true);
    BecomesNext(p, t, goal);
    CallByGroup(p, s, true);
    BecomesNext(p, s, goal);
  }

  /** The builder pass of a new upgrade of several nodes finds nothing to write. */
  lemma BuilderStops(p: Platform, inst: Instance, c: Cluster)
    requires GateOpen(p, inst, c.(checkpoint := None)) && c.checkpoint.Some? && c.support == inst.support
    requires ObsoleteNames(c, inst) == {} && |inst.secondaries| > 0
    ensures Becomes(p, System(c, Support(inst)), System(c, Rest(Requeued)))
  {
    assert c.(support := inst.support) == c;
    GateStops(p, inst, c);
    UnchangedMainCalls(p, inst, c);
    BecomesThen(p, System(c, Support(inst)), System(c, Obsolete(inst)), System(c, Rest(Requeued)));
  }

  lemma PassUpgrades(p: Platform, inst: Instance, c: Cluster, o: Outcome)
    requires AtGoal(p, inst, c) && ObsoleteNames(c, inst) == {} && Upgrades(p, inst, c)
    ensures PassEnds(p, c, o, System(c.(checkpoint := Some(FirstStage(inst))), Rest(Requeued)))
  {
    var d := c.(checkpoint := Some(FirstStage(inst)));
    var s, goal := System(c, Persist(inst, FirstStage(inst))), System(d, Rest(Requeued));
    AskBecomes(p, inst, c, FirstStage(inst));
    if |inst.secondaries| > 0 {
      assert ObsoleteNames(d, inst) == ObsoleteNames(c, inst);
      assert d.(checkpoint := None) == c;
      BuilderStops(p, inst, d);
      BecomesThen(p, s, System(d, Support(inst)), goal);
    }
    PassEndsFrom(p, inst, c, o, goal);
  }

  /** One whole pass brings the secondaries to the spec. Whatever the cluster does after that, as
      soon as the obsolete ones have gone the next whole pass changes nothing, exactly if the
      detector is quiet about what the first one wrote. */
  lemma TwoPasses(p: Platform, inst: Instance, c: Cluster, o: Outcome, es: seq<Event>, o': Outcome)
    requires WriteSettles(p) && Ready(p, inst, c) && !Upgrades(p, inst, c)
    requires forall i | 0 <= i < |es| :: !es[i].Edit? && !es[i].PodFailure?
    requires ObsoleteNames(HappenAll(Done(p, inst, c), es), inst) == {}
    ensures PassEnds(p, c, o, System(Done(p, inst, c), Rest(Finished)))
    ensures var d := HappenAll(Done(p, inst, c), es);
            PassEnds(p, d, o', System(d, Rest(Finished))) <==> !Upgrades(p, inst, d)
  {
    var d := HappenAll(Done(p, inst, c), es);
    PassTidies(p, inst, c, o);
    DoneIsReady(p, inst, c);
    EventsKeepGoal(p, inst, Done(p, inst, c), es);
    if Upgrades(p, inst, d) {
      PassUpgrades(p, inst, d, o');
      if PassEnds(p, d, o', System(d, Rest(Finished))) {
        var begun := d.(checkpoint := Some(FirstStage(inst)));
        OneEnd(p, inst, d, o', System(d, Rest(Finished)), System(begun, Rest(Requeued)));
      }
    } else {
      PassTidies(p, inst, d, o');
      NothingToDo(p, inst, d);
    }
  }
}
