/** The loop that decides whether an upgrade is needed, and how a pass opens. */
module Detection {
  import opened PodTree
  import opened PodTemplate
  import opened Stages
  import opened Cluster
  import opened Protocol
  import opened Passes

  predicate Unchanged(p: Platform, inst: Instance, c: Cluster, i: nat)
    requires i < |AllNodes(inst)|
  {
    var node := AllNodes(inst)[i];
    node.name in c.sets && !NeedsRestart(p, node, c.sets[node.name])
  }

  predicate Changed(p: Platform, inst: Instance, c: Cluster, i: nat)
    requires i < |AllNodes(inst)|
  {
    var node := AllNodes(inst)[i];
    node.name in c.sets && NeedsRestart(p, node, c.sets[node.name])
  }

  /** Some node differs, and every node before it, secondaries first and main last, is there and
      does not. */
  predicate RestartNeeded(p: Platform, inst: Instance, c: Cluster) {
    exists i | 0 <= i < |AllNodes(inst)| ::
      Changed(p, inst, c, i) && forall k | 0 <= k < i :: Unchanged(p, inst, c, k)
  }

  /** From the read of node `i` on, at most one read for each node that is left leads to the end of
      the loop. */
  ghost predicate Decides(p: Platform, inst: Instance, c: Cluster, ongoing: bool, i: nat, restart: bool)
    requires i < |AllNodes(inst)|
  {
    exists n: nat :: DecidesIn(p, inst, c, ongoing, i, restart, n)
  }

  ghost predicate DecidesIn(p: Platform, inst: Instance, c: Cluster, ongoing: bool, i: nat, restart: bool, n: nat)
    requires i < |AllNodes(inst)|
  {
    var s := System(c, Detect(inst, ongoing, i));
    && 0 < n <= |AllNodes(inst)| - i
    && Calls(p, s, n) == System(c, AfterDetect(inst, restart, ongoing))
    && forall k | 0 <= k < n :: Calls(p, s, k).at.Detect?
  }

  lemma DetectCall(p: Platform, inst: Instance, c: Cluster, ongoing: bool, i: nat)
    requires i < |AllNodes(inst)|
    ensures var t := Call(p, System(c, Detect(inst, ongoing, i)), true);
            t == System(c,
              if Changed(p, inst, c, i) then AfterDetect(inst, true, ongoing)
              else if Unchanged(p, inst, c, i) && i + 1 < |AllNodes(inst)| then Detect(inst, ongoing, i + 1)
              else AfterDetect(inst, false, ongoing))
  {
  }

  lemma StoppingDecides(p: Platform, inst: Instance, c: Cluster, i: nat)
    requires i < |AllNodes(inst)| && forall k | 0 <= k < i :: Unchanged(p, inst, c, k)
    requires Unchanged(p, inst, c, i) ==> i + 1 == |AllNodes(inst)|
    ensures RestartNeeded(p, inst, c) <==> Changed(p, inst, c, i)
  {
    assert forall k | 0 <= k < |AllNodes(inst)| :: !(Changed(p, inst, c, k) && Unchanged(p, inst, c, k));
  }

  lemma {:induction false} LoopDecides(p: Platform, inst: Instance, c: Cluster, ongoing: bool, i: nat)
    requires i < |AllNodes(inst)| && forall k | 0 <= k < i :: Unchanged(p, inst, c, k)
    ensures Decides(p, inst, c, ongoing, i, RestartNeeded(p, inst, c))
    decreases |AllNodes(inst)| - i
  {
    var s := System(c, Detect(inst, ongoing, i));
    var t, restart := Call(p, s, true), RestartNeeded(p, inst, c);
    DetectCall(p, inst, c, ongoing, i);
    if Unchanged(p, inst, c, i) && i + 1 < |AllNodes(inst)| {
      LoopDecides(p, inst, c, ongoing, i + 1);
      var n: nat :| DecidesIn(p, inst, c, ongoing, i + 1, restart, n);
      forall k | 0 <= k < n + 1 ensures Calls(p, s, k).at.Detect? {
        if 0 < k {
          assert Calls(p, s, k) == Calls(p, t, k - 1);
        }
      }
      assert DecidesIn(p, inst, c, ongoing, i, restart, n + 1);
    } else {
      StoppingDecides(p, inst, c, i);
      assert Calls(p, t, 0) == t;
      assert DecidesIn(p, inst, c, ongoing, i, restart, 1);
    }
  }

  lemma OneVerdict(p: Platform, inst: Instance, c: Cluster, a: bool, b: bool, m: nat, n: nat)
    requires DecidesIn(p, inst, c, false, 0, a, m) && DecidesIn(p, inst, c, false, 0, b, n)
    ensures a == b
  {
    var s := System(c, Detect(inst, false, 0));
    assert !Calls(p, s, m).at.Detect? && !Calls(p, s, n).at.Detect?;
    assert !(m < n) && !(n < m);
  }

  /** Without an upgrade under way and with successful reads, the loop starts one exactly when one is
      needed in the sense above, and goes on to the builders otherwise. */
  lemma DetectionDecides(p: Platform, inst: Instance, c: Cluster, restart: bool)
    ensures Decides(p, inst, c, false, 0, restart) <==> restart == RestartNeeded(p, inst, c)
  {
    LoopDecides(p, inst, c, false, 0);
    if Decides(p, inst, c, false, 0, restart) {
      var right := RestartNeeded(p, inst, c);
      var m: nat :| DecidesIn(p, inst, c, false, 0, right, m);
      var n: nat :| DecidesIn(p, inst, c, false, 0, restart, n);
      OneVerdict(p, inst, c, right, restart, m, n);
    }
  }

  /** A node that does not exist yet hides every change behind it: a secondary that is added
      together with a change to the main node switches the upgrade off. */
  lemma MissingNodeHidesChanges(p: Platform, inst: Instance, c: Cluster, k: nat)
    requires k < |AllNodes(inst)| && AllNodes(inst)[k].name !in c.sets
    ensures RestartNeeded(p, inst, c) <==>
            exists i | 0 <= i < k :: Changed(p, inst, c, i) && forall m | 0 <= m < i :: Unchanged(p, inst, c, m)
  {
    if RestartNeeded(p, inst, c) {
      var i :| 0 <= i < |AllNodes(inst)| && Changed(p, inst, c, i) && forall m | 0 <= m < i :: Unchanged(p, inst, c, m);
      assert !Unchanged(p, inst, c, k) && !Changed(p, inst, c, k);
      assert i < k;
    }
  }

  // ---- How a pass opens ----

  lemma LoopBecomes(p: Platform, inst: Instance, c: Cluster, ongoing: bool)
    ensures Becomes(p, System(c, Detect(inst, ongoing, 0)),
                    System(c, AfterDetect(inst, RestartNeeded(p, inst, c), ongoing)))
  {
    LoopDecides(p, inst, c, ongoing, 0);
    var restart := RestartNeeded(p, inst, c);
    var s, t := System(c, Detect(inst, ongoing, 0)), System(c, AfterDetect(inst, restart, ongoing));
    var n: nat :| DecidesIn(p, inst, c, ongoing, 0, restart, n);
    assert BecomesIn(p, s, t, n);
  }

  /** The point at which an undisturbed pass leaves the detection behind. */
  function Opened(p: Platform, inst: Instance, c: Cluster): Point {
    if c.checkpoint.Some? then Dispatch(inst, c.checkpoint.value)
    else if inst.zeroDowntime && RestartNeeded(p, inst, c) then Dispatch(inst, InitialStage(inst))
    else Support(inst)
  }

  lemma PassOpens(p: Platform, inst: Instance, c: Cluster, o: Outcome)
    requires c.teamcity == Some(inst) && !inst.deleting
    ensures Becomes(p, System(c, Rest(o)), System(c, Opened(p, inst, c)))
  {
    var s, t := System(c, Rest(o)), System(c, ReadOngoing(inst));
    var goal := System(c, Opened(p, inst, c));
    CallByGroup(p, t, true);
    if inst.zeroDowntime || c.checkpoint.Some? {
      var u := System(c, Detect(inst, c.checkpoint.Some?, 0));
      var v := System(c, AfterDetect(inst, RestartNeeded(p, inst, c), c.checkpoint.Some?));
      LoopBecomes(p, inst, c, c.checkpoint.Some?);
      if v.at.ReadStage? {
        CallByGroup(p, v, true);
        BecomesAtOnce(p, goal);
        BecomesNext(p, v, goal);
        BecomesThen(p, u, v, goal);
      }
      BecomesNext(p, t, goal);
    } else {
      BecomesAtOnce(p, goal);
      BecomesNext(p, t, goal);
    }
    BecomesNext(p, s, goal);
  }

  /** The request for a stage that may be persisted. */
  lemma AskBecomes(p: Platform, inst: Instance, c: Cluster, desired: Stage)
    requires c.checkpoint.Some? ==> CanChange(c.checkpoint.value, desired)
    ensures Becomes(p, System(c, Persist(inst, desired)),
                    System(c.(checkpoint := Some(desired)), AfterPersist(inst, desired)))
  {
    var s := System(c, Persist(inst, desired));
    var t := System(c, if c.checkpoint.None? then PersistCreate(inst, desired) else PersistUpdate(inst, desired));
    var u := System(c.(checkpoint := Some(desired)), AfterPersist(inst, desired));
    CallByGroup(p, s, true);
    CallByGroup(p, t, true);
    BecomesAtOnce(p, u);
    BecomesNext(p, t, u);
    BecomesNext(p, s, u);
  }

  /** The builders find nothing to write in the main node. */
  lemma UnchangedMainCalls(p: Platform, inst: Instance, c: Cluster)
    requires inst.main.name in c.sets && c.sets[inst.main.name].serviceName == inst.main.serviceName
    requires p.write(inst.main.desired, c.sets[inst.main.name].template) == c.sets[inst.main.name].template
    ensures Becomes(p, System(c, Support(inst)), System(c.(support := inst.support), Obsolete(inst)))
  {
    var d := c.(support := inst.support);
    var s, t, u := System(c, Support(inst)), System(d, MainHook(inst)), System(d, MainWrite(inst));
    var goal := System(d, Obsolete(inst));
    assert d.sets[inst.main.name := d.sets[inst.main.name]] == d.sets;
    BecomesAtOnce(p, goal);
    CallByGroup(p, u, true);
    BecomesNext(p, u, goal);
    CallByGroup(p, t, true);
    BecomesNext(p, t, goal);
    CallByGroup(p, s, true);
    BecomesNext(p, s, goal);
  }
}
