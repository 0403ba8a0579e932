/** What the availability theorem of a standalone upgrade cannot do without: for each kind of step
    that it restricts, when exactly the step opens a way to an outage by steps that it admits. */
module Hazards {
  import opened PodTree
  import opened PodTemplate
  import opened Stages
  import opened Cluster
  import opened Protocol
  import opened StageProtocol
  import opened SingleNode
  import opened Passes
  import opened Rollouts

  type Goal = System -> bool

  /** Steps that the availability theorem admits can lead to a state with `goal`. */
  ghost predicate CanReach(p: Platform, id: Identity, s: System, goal: Goal) {
    WellFormed(s.at) && exists acts: seq<Act> :: ReachesBy(p, id, s, goal, acts)
  }

  ghost predicate ReachesBy(p: Platform, id: Identity, s: System, goal: Goal, acts: seq<Act>)
    requires WellFormed(s.at)
  {
    AdmissibleRun(p, id, s, acts) && goal(Run(p, s, acts))
  }

  function Outage(id: Identity): Goal {
    (t: System) => !Serving(id, t.c)
  }

  function Torn(id: Identity): Goal {
    (t: System) => TornCertificate(id, t)
  }

  ghost predicate CanGoDown(p: Platform, id: Identity, s: System) {
    CanReach(p, id, s, Outage(id))
  }

  /** The other half: where the invariant holds there is no way down. */
  lemma SafeWhereInvariant(p: Platform, id: Identity, s: System)
    requires WriteSettles(p) && Inv(p, id, s)
    ensures !CanGoDown(p, id, s)
  {
    forall acts: seq<Act> | AdmissibleRun(p, id, s, acts) ensures Serving(id, Run(p, s, acts).c) {
      InvAlong(p, id, s, acts, |acts|);
      InvServes(p, id, Run(p, s, acts));
    }
  }

  lemma ReachNow(p: Platform, id: Identity, s: System, goal: Goal)
    requires WellFormed(s.at) && goal(s)
    ensures CanReach(p, id, s, goal)
  {
    assert ReachesBy(p, id, s, goal, []);
  }

  lemma ReachAfter(p: Platform, id: Identity, s: System, goal: Goal, a: Act)
    requires WellFormed(s.at) && Admissible(p, id, s, a) && CanReach(p, id, Step(p, s, a), goal)
    ensures CanReach(p, id, s, goal)
  {
    var t := Step(p, s, a);
    var acts: seq<Act> :| ReachesBy(p, id, t, goal, acts);
    var all := [a] + acts;
    assert all[1..] == acts;
    forall i | 0 <= i < |all| ensures Admissible(p, id, Trace(p, s, all)[i], all[i]) {
      if i > 0 {
        assert Trace(p, s, all)[i] == Trace(p, t, acts)[i - 1];
      }
    }
    assert ReachesBy(p, id, s, goal, all);
  }

  lemma DownAfter(p: Platform, id: Identity, s: System, a: Act)
    requires WellFormed(s.at) && Admissible(p, id, s, a) && CanGoDown(p, id, Step(p, s, a))
    ensures CanGoDown(p, id, s)
  {
    ReachAfter(p, id, s, Outage(id), a);
  }

  lemma {:induction false} ReachAfterCalls(p: Platform, id: Identity, s: System, goal: Goal, n: nat)
    requires WellFormed(s.at) && forall k | 0 <= k < n :: Admissible(p, id, Calls(p, s, k), Op(true))
    requires CanReach(p, id, Calls(p, s, n), goal)
    ensures CanReach(p, id, s, goal)
    decreases n
  {
    if n > 0 {
      var t := Call(p, s, true);
      forall k | 0 <= k < n - 1 ensures Admissible(p, id, Calls(p, t, k), Op(true)) {
        assert Calls(p, t, k) == Calls(p, s, k + 1);
      }
      ReachAfterCalls(p, id, t, goal, n - 1);
      assert Calls(p, s, 0) == s;
      ReachAfter(p, id, s, goal, Op(true));
    }
  }

  lemma ReachAfterLead(p: Platform, id: Identity, s: System, goal: Goal, t: System)
    requires Leads(p, id, s, t) && CanReach(p, id, t, goal)
    ensures CanReach(p, id, s, goal)
  {
    var n: nat :| LeadsIn(p, id, s, t, n);
    assert forall k | 0 <= k < n :: Proper(p, id, Calls(p, s, k), k);
    ReachAfterCalls(p, id, s, goal, n);
  }

  lemma ReachAfterPass(p: Platform, id: Identity, c: Cluster, goal: Goal, o: Outcome)
    requires Plain(id, c)
    requires c.checkpoint == Some(ReplicaCreated) ==> NoDyingReplica(id, c)
    requires forall o' :: CanReach(p, id, System(Pass(p, id, c), Rest(o')), goal)
    ensures CanReach(p, id, System(c, Rest(o)), goal)
  {
    PassIsCalls(p, id, c, o);
    var o' :| Leads(p, id, System(c, Rest(o)), System(Pass(p, id, c), Rest(o')));
    ReachAfterLead(p, id, System(c, Rest(o)), goal, System(Pass(p, id, c), Rest(o')));
  }

  lemma DownAfterPass(p: Platform, id: Identity, c: Cluster, o: Outcome)
    requires Plain(id, c)
    requires c.checkpoint == Some(ReplicaCreated) ==> NoDyingReplica(id, c)
    requires forall o' :: CanGoDown(p, id, System(Pass(p, id, c), Rest(o')))
    ensures CanGoDown(p, id, System(c, Rest(o)))
  {
    ReachAfterPass(p, id, c, Outage(id), o);
  }

  // ---- Ways down ----

  /** What a standalone upgrade works on: no leftovers of secondaries, statuses that lag behind. */
  predicate Shaped(id: Identity, c: Cluster) {
    Plain(id, c) && Reached(id, c)
  }

  function Main(id: Identity, c: Cluster): StatefulSet
    requires id.main in c.sets
  {
    c.sets[id.main]
  }

  /** A main node that is due to be replaced goes down when no replica answers. */
  lemma MainGoesDown(p: Platform, id: Identity, s: System)
    requires WellFormed(s.at) && !s.at.CertGeneration?
    requires id.main in s.c.sets && 0 < Main(id, s.c).observed && Restarting(Main(id, s.c))
    requires !ReplicaUp(id, s.c)
    ensures CanGoDown(p, id, s)
  {
    var x := Main(id, s.c);
    if !x.ready {
      ReachNow(p, id, s, Outage(id));
    } else if x.update != x.pod {
      ReachNow(p, id, Step(p, s, World(PodDown(id.main))), Outage(id));
      DownAfter(p, id, s, World(PodDown(id.main)));
    } else {
      var t := Step(p, s, World(Observe(id.main)));
      ReachNow(p, id, Step(p, t, World(PodDown(id.main))), Outage(id));
      DownAfter(p, id, t, World(PodDown(id.main)));
      DownAfter(p, id, s, World(Observe(id.main)));
    }
  }

  /** The same when the replica, rewritten but still up, can be taken down first. */
  lemma BothGoDown(p: Platform, id: Identity, c: Cluster, o: Outcome)
    requires Plain(id, c) && 0 < Main(id, c).observed && Restarting(Main(id, c))
    requires ReplicaUp(id, c)
    requires var r := c.sets[id.Replica()]; 0 < r.generation && r.pod != r.template
    ensures CanGoDown(p, id, System(c, Rest(o)))
  {
    var s := System(c, Rest(o));
    var seen := Happen(c, Observe(id.Replica()));
    var down := Happen(seen, PodDown(id.Replica()));
    MainGoesDown(p, id, System(down, Rest(o)));
    DownAfter(p, id, System(seen, Rest(o)), World(PodDown(id.Replica())));
    DownAfter(p, id, s, World(Observe(id.Replica())));
  }

  // ---- The last stages: the main node still has to be written ----

  lemma FinishedGoesDown(p: Platform, id: Identity, c: Cluster, o: Outcome)
    requires Shaped(id, c) && c.checkpoint == Some(UpdateFinished) && Pending(p, id, c, c.teamcity.value)
    requires Settled(Main(id, c)) && ReplicaLeaving(id, c)
    ensures CanGoDown(p, id, System(c, Rest(o)))
  {
    forall o' ensures CanGoDown(p, id, System(Pass(p, id, c), Rest(o'))) {
      MainGoesDown(p, id, System(Pass(p, id, c), Rest(o')));
    }
    DownAfterPass(p, id, c, o);
  }

  lemma MainReadyGoesDown(p: Platform, id: Identity, c: Cluster, o: Outcome)
    requires Shaped(id, c) && c.checkpoint == Some(MainReady) && Pending(p, id, c, c.teamcity.value)
    requires Settled(Main(id, c))
    ensures CanGoDown(p, id, System(c, Rest(o)))
  {
    forall o' ensures CanGoDown(p, id, System(Pass(p, id, c), Rest(o'))) {
      FinishedGoesDown(p, id, Pass(p, id, c), o');
    }
    DownAfterPass(p, id, c, o);
  }

  lemma EventKeepsShape(id: Identity, c: Cluster, e: Event)
    requires Shaped(id, c) && !e.Edit? && !e.PodFailure?
    ensures Shaped(id, Happen(c, e)) && Main(id, Happen(c, e)).template == Main(id, c).template
    ensures Happen(c, e) == c.(sets := Happen(c, e).sets)
  {
    MainEventAdvances(id, c, e);
    ReplicaEventAdvances(id, c, e);
  }

  /** At MainShuttingDown with the spec still to be written: the operator waits for a rollout of
      the old template, certifies it, and drops the replica. */
  lemma {:induction false} ShuttingDownGoesDown(p: Platform, id: Identity, c: Cluster, o: Outcome)
    requires Shaped(id, c) && c.checkpoint == Some(MainShuttingDown) && Pending(p, id, c, c.teamcity.value)
    ensures CanGoDown(p, id, System(c, Rest(o)))
    decreases Work(Main(id, c))
  {
    if Work(Main(id, c)) == 0 {
      forall o' ensures CanGoDown(p, id, System(Pass(p, id, c), Rest(o'))) {
        MainReadyGoesDown(p, id, Pass(p, id, c), o');
      }
      DownAfterPass(p, id, c, o);
    } else {
      var e := NextEvent(id.main, Main(id, c));
      EventKeepsShape(id, c, e);
      EventsHelp(c, id.main, e);
      ShuttingDownGoesDown(p, id, Happen(c, e), o);
      DownAfter(p, id, System(c, Rest(o)), World(e));
    }
  }

  // ---- A template that is being rolled away from ----

  /** The pod has left the template that the status still calls current, and the spec asks for it. */
  predicate Misread(p: Platform, id: Identity, c: Cluster) {
    && Shaped(id, c) && c.checkpoint == Some(ReplicaReady)
    && var x, w := Main(id, c), Target(p, c.teamcity.value, Main(id, c).template);
    && x.current == w && x.ready && x.pod == x.update && x.update != w && x.template != w
  }

  lemma CertifiedGoesDown(p: Platform, id: Identity, c: Cluster, o: Outcome)
    requires Plain(id, c) && c.checkpoint == Some(MainShuttingDown) && IsCertified(Main(id, c))
    requires Main(id, c).update != Main(id, c).pod && 0 < Main(id, c).observed
    ensures CanGoDown(p, id, System(c, Rest(o)))
  {
    var d := Pass(p, id, c);
    var e := Pass(p, id, d);
    forall o' ensures CanGoDown(p, id, System(d, Rest(o'))) {
      forall o'' ensures CanGoDown(p, id, System(e, Rest(o''))) {
        MainGoesDown(p, id, System(e, Rest(o'')));
      }
      DownAfterPass(p, id, d, o');
    }
    DownAfterPass(p, id, c, o);
  }

  /** Writing it makes current and update revision equal, and the rollout is taken for finished. */
  lemma MisreadGoesDown(p: Platform, id: Identity, c: Cluster, o: Outcome)
    requires WriteSettles(p) && Misread(p, id, c)
    ensures CanGoDown(p, id, System(c, Rest(o)))
  {
    var d := Pass(p, id, c);
    var e := Happen(d, Observe(id.main));
    forall o' ensures CanGoDown(p, id, System(d, Rest(o'))) {
      CertifiedGoesDown(p, id, e, o');
      DownAfter(p, id, System(d, Rest(o')), World(Observe(id.main)));
    }
    DownAfterPass(p, id, c, o);
  }

  /** Down and up again: the pod runs the update revision. */
  function Replaced(id: Identity, c: Cluster): Cluster {
    Happen(Happen(c, PodDown(id.main)), PodUp(id.main))
  }

  lemma ReplacedRuns(id: Identity, c: Cluster)
    requires Shaped(id, c)
    ensures var d := Replaced(id, c);
            && Shaped(id, d) && d == c.(sets := d.sets)
            && Main(id, d) == Main(id, c).(ready := true, pod := Main(id, c).update)
            && (ReplicaUp(id, c) ==> ReplicaUp(id, d))
  {
    EventKeepsShape(id, c, PodDown(id.main));
    EventKeepsShape(id, Happen(c, PodDown(id.main)), PodUp(id.main));
  }

  lemma DownAfterReplacing(p: Platform, id: Identity, c: Cluster, o: Outcome)
    requires CanGoDown(p, id, System(Replaced(id, c), Rest(o)))
    ensures CanGoDown(p, id, System(c, Rest(o)))
  {
    DownAfter(p, id, System(Happen(c, PodDown(id.main)), Rest(o)), World(PodUp(id.main)));
    DownAfter(p, id, System(c, Rest(o)), World(PodDown(id.main)));
  }

  lemma CurrentGoesDown(p: Platform, id: Identity, c: Cluster, o: Outcome)
    requires WriteSettles(p) && Shaped(id, c) && c.checkpoint == Some(ReplicaReady)
    requires var w := Target(p, c.teamcity.value, Main(id, c).template);
             w != Main(id, c).template && w == Main(id, c).current
    ensures CanGoDown(p, id, System(c, Rest(o)))
  {
    var d := Happen(c, Observe(id.main));
    EventKeepsShape(id, c, Observe(id.main));
    ReplacedRuns(id, d);
    MisreadGoesDown(p, id, Replaced(id, d), o);
    DownAfterReplacing(p, id, d, o);
    DownAfter(p, id, System(c, Rest(o)), World(Observe(id.main)));
  }

  lemma UpdateGoesDown(p: Platform, id: Identity, c: Cluster, o: Outcome)
    requires WriteSettles(p) && Shaped(id, c) && c.checkpoint == Some(ReplicaReady)
    requires var w := Target(p, c.teamcity.value, Main(id, c).template);
             w != Main(id, c).template && w == Main(id, c).update
    ensures CanGoDown(p, id, System(c, Rest(o)))
  {
    var d := Replaced(id, c);
    ReplacedRuns(id, c);
    EventKeepsShape(id, d, Promote(id.main));
    CurrentGoesDown(p, id, Happen(d, Promote(id.main)), o);
    DownAfter(p, id, System(d, Rest(o)), World(Promote(id.main)));
    DownAfterReplacing(p, id, c, o);
  }

  /** At any stage that has its replica, a spec that goes back to such a template leads down. */
  lemma StrayGoesDown(p: Platform, id: Identity, c: Cluster, o: Outcome)
    requires WriteSettles(p) && Shaped(id, c) && ReplicaUp(id, c)
    requires c.checkpoint in {Some(ReplicaCreated), Some(ReplicaStarting), Some(ReplicaReady)}
    requires !Lands(p, c.teamcity.value, Main(id, c), Main(id, c).template)
    requires c.checkpoint == Some(ReplicaCreated) ==> Fresh(p, id, c, c.teamcity.value, Main(id, c).template)
    ensures CanGoDown(p, id, System(c, Rest(o)))
    decreases 4 - Rank(c.checkpoint.value)
  {
    if c.checkpoint == Some(ReplicaReady) {
      if Target(p, c.teamcity.value, Main(id, c).template) == Main(id, c).current {
        CurrentGoesDown(p, id, c, o);
      } else {
        UpdateGoesDown(p, id, c, o);
      }
    } else {
      var d := Pass(p, id, c);
      assert d == c.(checkpoint := d.checkpoint) by {
        assert ReplicaName(c.teamcity.value) == id.Replica();
      }
      forall o' ensures CanGoDown(p, id, System(d, Rest(o'))) {
        StrayGoesDown(p, id, d, o');
      }
      DownAfterPass(p, id, c, o);
    }
  }

  // ---- A replica that is made anew ----

  /** The replica answers, and the next pass will rewrite it. */
  predicate Outdated(p: Platform, id: Identity, c: Cluster) {
    && Shaped(id, c) && c.checkpoint == Some(ReplicaCreated) && ReplicaUp(id, c)
    && !Fresh(p, id, c, c.teamcity.value, Main(id, c).template)
  }

  lemma RewrittenReplica(p: Platform, id: Identity, c: Cluster)
    requires Outdated(p, id, c)
    ensures var d := Pass(p, id, c);
            && Plain(id, d) && Rolling(id, Main(id, d)) && Main(id, d) == Main(id, c)
            && d.checkpoint == Some(ReplicaStarting) && ReplicaUp(id, d) && d.teamcity == c.teamcity
            && var r := d.sets[id.Replica()]; 0 < r.generation && r.pod != r.template
  {
    assert ReplicaName(c.teamcity.value) == id.Replica();
  }

  /** Some spec asks for a template that is not being rolled out and was not stored before. */
  ghost predicate CanRenew(p: Platform, id: Identity, x: StatefulSet) {
    exists m: Instance :: Renews(p, id, x, m)
  }

  predicate Renews(p: Platform, id: Identity, x: StatefulSet, m: Instance) {
    Standalone(id, m) && Target(p, m, x.template) !in {x.current, x.update, x.template}
  }

  /** The main node is being replaced, is about to be, or can still be asked to. */
  ghost predicate Stirred(p: Platform, id: Identity, c: Cluster)
    requires Plain(id, c)
  {
    Restarting(Main(id, c)) || Pending(p, id, c, c.teamcity.value) || CanRenew(p, id, Main(id, c))
  }

  /** At the stages that wait for the replica, a replica that answers is enough for another edit. */
  lemma DownAfterRenewal(p: Platform, id: Identity, c: Cluster, o: Outcome, m: Instance)
    requires Plain(id, c) && ReplicaUp(id, c) && c.checkpoint in {Some(ReplicaStarting), Some(ReplicaReady)}
    requires Renews(p, id, Main(id, c), m)
    requires CanGoDown(p, id, System(c.(teamcity := Some(m)), Rest(o)))
    ensures CanGoDown(p, id, System(c, Rest(o)))
  {
    assert Bears(p, id, System(c, Rest(o)), m);
    DownAfter(p, id, System(c, Rest(o)), World(Edit(m)));
  }

  /** With the rewritten replica taken for ready, the main node is restarted next to it. */
  lemma RewrittenGoesDown(p: Platform, id: Identity, c: Cluster, o: Outcome)
    requires Plain(id, c) && Rolling(id, Main(id, c)) && ReplicaUp(id, c)
    requires c.checkpoint in {Some(ReplicaStarting), Some(ReplicaReady)}
    requires var r := c.sets[id.Replica()]; 0 < r.generation && r.pod != r.template
    requires Restarting(Main(id, c)) || Pending(p, id, c, c.teamcity.value)
    ensures CanGoDown(p, id, System(c, Rest(o)))
    decreases 4 - Rank(c.checkpoint.value)
  {
    if Restarting(Main(id, c)) {
      BothGoDown(p, id, c, o);
    } else {
      var d := Pass(p, id, c);
      if c.checkpoint == Some(ReplicaStarting) {
        assert d == c.(checkpoint := Some(ReplicaReady));
      } else {
        assert d.sets[id.Replica()] == c.sets[id.Replica()];
      }
      forall o' ensures CanGoDown(p, id, System(d, Rest(o'))) {
        if c.checkpoint == Some(ReplicaStarting) {
          RewrittenGoesDown(p, id, d, o');
        } else {
          BothGoDown(p, id, d, o');
        }
      }
      DownAfterPass(p, id, c, o);
    }
  }

  lemma RewrittenAndStirredGoesDown(p: Platform, id: Identity, c: Cluster, o: Outcome)
    requires Plain(id, c) && Rolling(id, Main(id, c)) && ReplicaUp(id, c)
    requires c.checkpoint in {Some(ReplicaStarting), Some(ReplicaReady)}
    requires var r := c.sets[id.Replica()]; 0 < r.generation && r.pod != r.template
    requires Stirred(p, id, c)
    ensures CanGoDown(p, id, System(c, Rest(o)))
  {
    if Restarting(Main(id, c)) || Pending(p, id, c, c.teamcity.value) {
      RewrittenGoesDown(p, id, c, o);
    } else {
      var m :| Renews(p, id, Main(id, c), m);
      RewrittenGoesDown(p, id, c.(teamcity := Some(m)), o);
      DownAfterRenewal(p, id, c, o, m);
    }
  }

  lemma OutdatedGoesDown(p: Platform, id: Identity, c: Cluster, o: Outcome)
    requires Outdated(p, id, c) && Stirred(p, id, c)
    ensures CanGoDown(p, id, System(c, Rest(o)))
  {
    RewrittenReplica(p, id, c);
    var d := Pass(p, id, c);
    forall o' ensures CanGoDown(p, id, System(d, Rest(o'))) {
      RewrittenAndStirredGoesDown(p, id, d, o');
    }
    DownAfterPass(p, id, c, o);
  }

  /** A live replica becomes ready by itself. */
  function Started(id: Identity, c: Cluster): Cluster {
    Happen(Happen(c, Observe(id.Replica())), PodUp(id.Replica()))
  }

  lemma StartedAnswers(id: Identity, c: Cluster)
    requires Shaped(id, c) && id.Replica() in c.sets && !c.sets[id.Replica()].terminating
    ensures var d := Started(id, c);
            && Shaped(id, d) && d == c.(sets := d.sets) && Main(id, d) == Main(id, c)
            && ReplicaUp(id, d) && d.sets[id.Replica()].template == c.sets[id.Replica()].template
  {
    EventKeepsShape(id, c, Observe(id.Replica()));
    EventKeepsShape(id, Happen(c, Observe(id.Replica())), PodUp(id.Replica()));
  }

  lemma DownAfterStart(p: Platform, id: Identity, c: Cluster, o: Outcome)
    requires CanGoDown(p, id, System(Started(id, c), Rest(o)))
    ensures CanGoDown(p, id, System(c, Rest(o)))
  {
    DownAfter(p, id, System(Happen(c, Observe(id.Replica())), Rest(o)), World(PodUp(id.Replica())));
    DownAfter(p, id, System(c, Rest(o)), World(Observe(id.Replica())));
  }

  lemma NotFreshGoesDown(p: Platform, id: Identity, c: Cluster, o: Outcome)
    requires Shaped(id, c) && c.checkpoint == Some(ReplicaCreated)
    requires !Fresh(p, id, c, c.teamcity.value, Main(id, c).template) && Stirred(p, id, c)
    ensures CanGoDown(p, id, System(c, Rest(o)))
  {
    StartedAnswers(id, c);
    OutdatedGoesDown(p, id, Started(id, c), o);
    DownAfterStart(p, id, c, o);
  }

  // ---- An edit that the detector does not see ----

  /** The main node as the builders write it from a copy of the spec. */
  function WrittenBy(p: Platform, id: Identity, c: Cluster, inst: Instance, support: Tree): Cluster
    requires id.main in c.sets
  {
    var x := c.sets[id.main];
    c.(support := support, sets := c.sets[id.main := Store(x, Target(p, inst, x.template))])
  }

  ghost predicate DownOnceWritten(p: Platform, id: Identity, c: Cluster, inst: Instance, support: Tree)
    requires id.main in c.sets
  {
    CanGoDown(p, id, System(WrittenBy(p, id, c, inst, support), Obsolete(inst)))
  }

  /** From the start of the builders to the end of the main write, if nothing cuts in. */
  lemma BuilderGoesDown(p: Platform, id: Identity, s: System)
    requires BeforeMainWrite(s.at) && Standalone(id, s.at.inst)
    requires id.main in s.c.sets && s.c.sets[id.main].serviceName == id.serviceName
    requires forall support :: DownOnceWritten(p, id, s.c, s.at.inst, support)
    ensures CanGoDown(p, id, s)
    decreases if s.at.Support? then 2 else if s.at.MainHook? then 1 else 0
  {
    CallByGroup(p, s, true);
    var t := CallMain(p, s, true);
    if s.at.MainWrite? {
      assert DownOnceWritten(p, id, s.c, s.at.inst, s.c.support);
      assert t == System(WrittenBy(p, id, s.c, s.at.inst, s.c.support), Obsolete(s.at.inst));
    } else {
      forall support ensures DownOnceWritten(p, id, t.c, s.at.inst, support) {
        assert DownOnceWritten(p, id, s.c, s.at.inst, support);
        assert WrittenBy(p, id, t.c, s.at.inst, support) == WrittenBy(p, id, s.c, s.at.inst, support);
      }
      BuilderGoesDown(p, id, t);
    }
    DownAfter(p, id, s, Op(true));
  }

  /** Cutting a pass off is always possible, except before the protected write. */
  lemma CutOffGoesDown(p: Platform, id: Identity, s: System)
    requires WellFormed(s.at) && !InProtectedWrite(p, id, s) && CanGoDown(p, id, System(s.c, Rest(Crashed)))
    ensures CanGoDown(p, id, s)
  {
    DownAfter(p, id, s, Crash);
  }

  lemma WrittenIsShaped(p: Platform, id: Identity, c: Cluster, inst: Instance, support: Tree)
    requires Shaped(id, c) && Lands(p, inst, Main(id, c), Main(id, c).template)
    ensures Shaped(id, WrittenBy(p, id, c, inst, support))
    ensures var x := Main(id, WrittenBy(p, id, c, inst, support));
            && x.current == Main(id, c).current && x.update == Main(id, c).update
            && x.template == Target(p, inst, Main(id, c).template)
            && (Conforms(p, inst, Main(id, c).template) || Restarting(x))
  {
    assert |id.Replica()| > |id.main|;
  }

  /** A checkpoint that is not there, or whose read fails, and a quiet detector lead to the builders. */
  lemma QuietPassGoesDown(p: Platform, id: Identity, c: Cluster, o: Outcome)
    requires Plain(id, c) && !p.detect(c.teamcity.value.main.desired, Main(id, c).template)
    requires forall support :: DownOnceWritten(p, id, c, c.teamcity.value, support)
    ensures CanGoDown(p, id, System(c, Rest(o)))
  {
    var n := c.teamcity.value;
    var s, t, u := System(c, ReadOngoing(n)), System(c, Detect(n, false, 0)), System(c, Protocol.Support(n));
    assert AllNodes(n) == [n.main];
    BuilderGoesDown(p, id, u);
    CallByGroup(p, t, true);
    DownAfter(p, id, t, Op(true));
    CallByGroup(p, s, c.checkpoint.None?);
    DownAfter(p, id, s, Op(c.checkpoint.None?));
    DownAfter(p, id, System(c, Rest(o)), Op(true));
  }

  lemma BlindGoesDown(p: Platform, id: Identity, c: Cluster, o: Outcome)
    requires Shaped(id, c) && !Sees(p, c.teamcity.value, Main(id, c).template)
    requires c.checkpoint in {None, Some(ReplicaCreated), Some(ReplicaStarting)}
    requires Lands(p, c.teamcity.value, Main(id, c), Main(id, c).template)
    requires ReplicaUp(id, c) ==>
               c.checkpoint == Some(ReplicaCreated) && !Covers(p, id, c, c.teamcity.value, Main(id, c).template)
    ensures CanGoDown(p, id, System(c, Rest(o)))
  {
    var n := c.teamcity.value;
    assert |id.Replica()| > |id.main|;
    forall support ensures DownOnceWritten(p, id, c, n, support) {
      var d := WrittenBy(p, id, c, n, support);
      WrittenIsShaped(p, id, c, n, support);
      if ReplicaUp(id, c) {
        OutdatedGoesDown(p, id, d, Crashed);
        CutOffGoesDown(p, id, System(d, Obsolete(n)));
      } else {
        MainGoesDown(p, id, System(d, Obsolete(n)));
      }
    }
    QuietPassGoesDown(p, id, c, o);
  }

  // ---- An unsafe cluster at rest ----

  /** What an edit, or a builder pass that should not have been, leaves of the safety of a cluster. */
  predicate Half(id: Identity, c: Cluster)
    requires id.main in c.sets
  {
    var x := Main(id, c);
    match c.checkpoint
    case None => ReplicaLeaving(id, c) && (Settled(x) || Restarting(x))
    case Some(UpdateInitiated) => false
    case Some(ReplicaCreated) => Settled(x) || ReplicaUp(id, c) || Restarting(x)
    case Some(ReplicaStarting) => NoDyingReplica(id, c) && (Settled(x) || ReplicaUp(id, c) || Restarting(x))
    case Some(ReplicaReady) => ReplicaUp(id, c)
    case Some(MainShuttingDown) => ReplicaUp(id, c)
    case Some(MainReady) => Settled(x)
    case Some(UpdateFinished) => Settled(x) && ReplicaLeaving(id, c)
  }

  lemma EarlyGoesDown(p: Platform, id: Identity, c: Cluster, o: Outcome)
    requires WriteSettles(p) && Shaped(id, c) && Half(id, c)
    requires c.checkpoint in {None, Some(ReplicaCreated), Some(ReplicaStarting)}
    requires !Safe(p, id, c, c.checkpoint, c.teamcity.value, Main(id, c).template)
    requires Restarting(Main(id, c)) || Pending(p, id, c, c.teamcity.value)
    ensures CanGoDown(p, id, System(c, Rest(o)))
  {
    var n, x := c.teamcity.value, Main(id, c);
    if !ReplicaUp(id, c) && Restarting(x) {
      MainGoesDown(p, id, System(c, Rest(o)));
    } else if c.checkpoint == Some(ReplicaCreated) && !Fresh(p, id, c, n, x.template) {
      NotFreshGoesDown(p, id, c, o);
    } else if !Lands(p, n, x, x.template) {
      StrayGoesDown(p, id, c, o);
    } else {
      BlindGoesDown(p, id, c, o);
    }
  }

  /** A resting operator that is not safe, with something to write or to roll out, can be led down. */
  lemma UnsafeGoesDown(p: Platform, id: Identity, c: Cluster, o: Outcome)
    requires WriteSettles(p) && Shaped(id, c) && Half(id, c)
    requires !Safe(p, id, c, c.checkpoint, c.teamcity.value, Main(id, c).template)
    requires Restarting(Main(id, c)) || Pending(p, id, c, c.teamcity.value)
    ensures CanGoDown(p, id, System(c, Rest(o)))
  {
    if c.checkpoint in {None, Some(ReplicaCreated), Some(ReplicaStarting)} {
      EarlyGoesDown(p, id, c, o);
    } else if c.checkpoint == Some(ReplicaReady) {
      StrayGoesDown(p, id, c, o);
    } else if c.checkpoint == Some(MainShuttingDown) {
      ShuttingDownGoesDown(p, id, c, o);
    } else if c.checkpoint == Some(MainReady) {
      MainReadyGoesDown(p, id, c, o);
    } else {
      FinishedGoesDown(p, id, c, o);
    }
  }

  // ---- An unsafe pass ----

  lemma InvIsHalf(p: Platform, id: Identity, s: System)
    requires Inv(p, id, s)
    ensures Half(id, s.c)
  {
  }

  /** The write makes true of the status what the plan of it already said. */
  lemma WrittenIsUnsafe(p: Platform, id: Identity, c: Cluster, copy: Instance, support: Tree)
    requires Shaped(id, c) && Half(id, c) && Lands(p, copy, Main(id, c), Main(id, c).template)
    requires c.checkpoint !in {Some(MainReady), Some(UpdateFinished)}
    requires !Safe(p, id, c, c.checkpoint, c.teamcity.value, Target(p, copy, Main(id, c).template))
    requires Main(id, c).update == Main(id, c).template
             || Target(p, c.teamcity.value, Target(p, copy, Main(id, c).template)) != Main(id, c).template
    ensures var d := WrittenBy(p, id, c, copy, support);
            && Shaped(id, d) && Half(id, d) && d.checkpoint == c.checkpoint
            && !Safe(p, id, d, d.checkpoint, d.teamcity.value, Main(id, d).template)
  {
    assert |id.Replica()| > |id.main|;
    WrittenIsShaped(p, id, c, copy, support);
  }

  lemma PlanGoesDown(p: Platform, id: Identity, s: System)
    requires WriteSettles(p) && BeforeMainWrite(s.at) && Standalone(id, s.at.inst)
    requires Shaped(id, s.c) && Half(id, s.c) && Lands(p, s.at.inst, Main(id, s.c), Main(id, s.c).template)
    requires s.c.checkpoint !in {Some(MainReady), Some(UpdateFinished)}
    requires !Safe(p, id, s.c, s.c.checkpoint, s.c.teamcity.value, Target(p, s.at.inst, Main(id, s.c).template))
    requires Main(id, s.c).update == Main(id, s.c).template
             || Target(p, s.c.teamcity.value, Target(p, s.at.inst, Main(id, s.c).template)) != Main(id, s.c).template
    requires !Conforms(p, s.at.inst, Main(id, s.c).template) || Pending(p, id, s.c, s.c.teamcity.value)
    ensures CanGoDown(p, id, s)
  {
    var copy := s.at.inst;
    forall support ensures DownOnceWritten(p, id, s.c, copy, support) {
      var d := WrittenBy(p, id, s.c, copy, support);
      WrittenIsUnsafe(p, id, s.c, copy, support);
      WrittenIsShaped(p, id, s.c, copy, support);
      UnsafeGoesDown(p, id, d, Crashed);
      CutOffGoesDown(p, id, System(d, Obsolete(copy)));
    }
    BuilderGoesDown(p, id, s);
  }

  /** A builder pass that would leave the cluster unsafe leads down. */
  lemma BuildGoesDown(p: Platform, id: Identity, s: System)
    requires WriteSettles(p) && BeforeMainWrite(s.at) && Standalone(id, s.at.inst)
    requires Shaped(id, s.c) && Half(id, s.c) && Lands(p, s.at.inst, Main(id, s.c), Main(id, s.c).template)
    requires s.c.checkpoint !in {Some(MainReady), Some(UpdateFinished)}
    requires !Safe(p, id, s.c, s.c.checkpoint, s.c.teamcity.value, Target(p, s.at.inst, Main(id, s.c).template))
    requires !Conforms(p, s.at.inst, Main(id, s.c).template) || Pending(p, id, s.c, s.c.teamcity.value)
    ensures CanGoDown(p, id, s)
  {
    var x := Main(id, s.c);
    var w := Target(p, s.at.inst, x.template);
    if x.update == x.template || Target(p, s.c.teamcity.value, w) != x.template {
      PlanGoesDown(p, id, s);
    } else if !ReplicaUp(id, s.c) {
      MainGoesDown(p, id, s);
    } else {
      var t := Step(p, s, World(Observe(id.main)));
      EventKeepsShape(id, s.c, Observe(id.main));
      ObservedPlan(p, id, s);
      PlanGoesDown(p, id, t);
      DownAfter(p, id, s, World(Observe(id.main)));
    }
  }

  /** A plan that goes back to the stored template is unsafe once the controller has seen that. */
  lemma ObservedPlan(p: Platform, id: Identity, s: System)
    requires BeforeMainWrite(s.at) && Shaped(id, s.c) && Half(id, s.c) && ReplicaUp(id, s.c)
    requires Lands(p, s.at.inst, Main(id, s.c), Main(id, s.c).template)
    requires var x := Main(id, s.c);
             var w := Target(p, s.at.inst, x.template);
             && x.update != x.template && Target(p, s.c.teamcity.value, w) == x.template
             && !Safe(p, id, s.c, s.c.checkpoint, s.c.teamcity.value, w)
    ensures var t := Step(p, s, World(Observe(id.main)));
            && Half(id, t.c) && Main(id, t.c).update == Main(id, t.c).template == Main(id, s.c).template
            && Lands(p, s.at.inst, Main(id, t.c), Main(id, t.c).template)
            && !Safe(p, id, t.c, t.c.checkpoint, t.c.teamcity.value, Target(p, s.at.inst, Main(id, t.c).template))
  {
    assert |id.Replica()| > |id.main|;
  }

  lemma StageGoesDown(p: Platform, id: Identity, c: Cluster, copy: Instance)
    requires c.checkpoint.Some? && CanGoDown(p, id, System(c, Dispatch(copy, c.checkpoint.value)))
    ensures CanGoDown(p, id, System(c, ReadStage(copy)))
  {
    var s := System(c, ReadStage(copy));
    assert Call(p, s, true) == System(c, Dispatch(copy, c.checkpoint.value));
    DownAfter(p, id, s, Op(true));
  }

  lemma DetectionGoesDown(p: Platform, id: Identity, c: Cluster, copy: Instance, ongoing: bool)
    requires Plain(id, c) && Standalone(id, copy) && CanGoDown(p, id, System(c, ReadStage(copy)))
    requires ongoing || p.detect(copy.main.desired, Main(id, c).template)
    ensures CanGoDown(p, id, System(c, Detect(copy, ongoing, 0)))
  {
    var s := System(c, Detect(copy, ongoing, 0));
    assert AllNodes(copy) == [copy.main];
    assert CallDetection(p, s, true) == System(c, ReadStage(copy));
    assert Call(p, s, true) == System(c, ReadStage(copy));
    DownAfter(p, id, s, Op(true));
  }

  lemma OngoingGoesDown(p: Platform, id: Identity, c: Cluster, copy: Instance)
    requires c.checkpoint.Some? && CanGoDown(p, id, System(c, Detect(copy, true, 0)))
    ensures CanGoDown(p, id, System(c, ReadOngoing(copy)))
  {
    var s := System(c, ReadOngoing(copy));
    assert Call(p, s, true) == System(c, Detect(copy, true, 0));
    DownAfter(p, id, s, Op(true));
  }

  /** From the points that come to a stage, with reads that succeed. */
  lemma ActGoesDown(p: Platform, id: Identity, s: System)
    requires !s.at.Rest? && WellFormed(s.at) && Plain(id, s.c) && Standalone(id, s.at.inst)
    requires MayAct(p, s.at, Main(id, s.c).template) && s.c.checkpoint.Some?
    requires CanGoDown(p, id, System(s.c, Dispatch(s.at.inst, s.c.checkpoint.value)))
    ensures CanGoDown(p, id, s)
  {
    var c, copy := s.c, s.at.inst;
    assert |AllNodes(copy)| == 1;
    StageGoesDown(p, id, c, copy);
    match s.at
    case Detect(_, ongoing, _) =>
      DetectionGoesDown(p, id, c, copy, ongoing);
      assert s == System(c, Detect(copy, ongoing, 0));
    case ReadOngoing(_) =>
      DetectionGoesDown(p, id, c, copy, true);
      OngoingGoesDown(p, id, c, copy);
      assert s == System(c, ReadOngoing(copy));
    case ReadStage(_) =>
      assert s == System(c, ReadStage(copy));
  }

  /** From the points that come to the builders with a detector that is quiet. */
  lemma QuietGoesDown(p: Platform, id: Identity, s: System)
    requires !s.at.Rest? && WellFormed(s.at) && Plain(id, s.c) && Standalone(id, s.at.inst)
    requires s.at.ReadOngoing? || (s.at.Detect? && !s.at.ongoing)
    requires !p.detect(s.at.inst.main.desired, Main(id, s.c).template)
    requires CanGoDown(p, id, System(s.c, Protocol.Support(s.at.inst)))
    ensures CanGoDown(p, id, s)
  {
    var copy := s.at.inst;
    var t := System(s.c, Detect(copy, false, 0));
    assert AllNodes(copy) == [copy.main];
    CallByGroup(p, t, true);
    DownAfter(p, id, t, Op(true));
    if s.at.ReadOngoing? {
      CallByGroup(p, s, false);
      DownAfter(p, id, s, Op(false));
    }
  }

  lemma CommittedGoesDown(p: Platform, id: Identity, c: Cluster, copy: Instance)
    requires WriteSettles(p) && Shaped(id, c) && ReplicaUp(id, c) && Standalone(id, copy)
    requires c.checkpoint == Some(MainShuttingDown)
    requires Lands(p, copy, Main(id, c), Main(id, c).template)
    requires !Conforms(p, c.teamcity.value, Target(p, copy, Main(id, c).template))
    ensures CanGoDown(p, id, System(c, Protocol.Support(copy)))
  {
    assert Half(id, c);
    BuildGoesDown(p, id, System(c, Protocol.Support(copy)));
  }

  lemma PersistedGoesDown(p: Platform, id: Identity, c: Cluster, copy: Instance, desired: Stage)
    requires c.checkpoint.Some?
    requires CanGoDown(p, id, System(c.(checkpoint := Some(desired)), AfterPersist(copy, desired)))
    ensures CanGoDown(p, id, System(c, PersistUpdate(copy, desired)))
  {
    var s := System(c, PersistUpdate(copy, desired));
    assert Call(p, s, true) == System(c.(checkpoint := Some(desired)), AfterPersist(copy, desired));
    DownAfter(p, id, s, Op(true));
  }

  lemma RequestGoesDown(p: Platform, id: Identity, c: Cluster, copy: Instance, desired: Stage)
    requires c.checkpoint.Some? && CanChange(c.checkpoint.value, desired)
    requires CanGoDown(p, id, System(c, PersistUpdate(copy, desired)))
    ensures CanGoDown(p, id, System(c, Persist(copy, desired)))
  {
    assert Call(p, System(c, Persist(copy, desired)), true) == System(c, PersistUpdate(copy, desired));
    DownAfter(p, id, System(c, Persist(copy, desired)), Op(true));
  }

  lemma RequestedGoesDown(p: Platform, id: Identity, c: Cluster, copy: Instance)
    requires c.checkpoint == Some(ReplicaReady)
    requires CanGoDown(p, id, System(c.(checkpoint := Some(MainShuttingDown)), Protocol.Support(copy)))
    ensures CanGoDown(p, id, System(c, PersistUpdate(copy, MainShuttingDown)))
    ensures CanGoDown(p, id, System(c, Persist(copy, MainShuttingDown)))
  {
    PersistedGoesDown(p, id, c, copy, MainShuttingDown);
    RequestGoesDown(p, id, c, copy, MainShuttingDown);
  }

  lemma ComingGoesDown(p: Platform, id: Identity, s: System)
    requires !s.at.Rest? && WellFormed(s.at) && Coupled(s) && Plain(id, s.c) && Standalone(id, s.at.inst)
    requires MayShutDown(p, s.at, s.c.checkpoint, Main(id, s.c).template)
    requires CanGoDown(p, id, System(s.c, PersistUpdate(s.at.inst, MainShuttingDown)))
    requires CanGoDown(p, id, System(s.c, Persist(s.at.inst, MainShuttingDown)))
    ensures CanGoDown(p, id, s)
  {
    if MayAct(p, s.at, Main(id, s.c).template) {
      ActGoesDown(p, id, s);
    } else if s.at.Persist? {
      assert s == System(s.c, Persist(s.at.inst, MainShuttingDown));
    } else {
      assert s == System(s.c, PersistUpdate(s.at.inst, MainShuttingDown));
    }
  }

  /** Persisting MainShuttingDown and writing a copy that does not do for the spec. */
  lemma ShuttingGoesDown(p: Platform, id: Identity, s: System)
    requires WriteSettles(p) && !s.at.Rest? && WellFormed(s.at) && Coupled(s)
    requires Shaped(id, s.c) && ReplicaUp(id, s.c) && Standalone(id, s.at.inst)
    requires MayShutDown(p, s.at, s.c.checkpoint, Main(id, s.c).template)
    requires Lands(p, s.at.inst, Main(id, s.c), Main(id, s.c).template)
    requires !Conforms(p, s.c.teamcity.value, Target(p, s.at.inst, Main(id, s.c).template))
    ensures CanGoDown(p, id, s)
  {
    CommittedGoesDown(p, id, s.c.(checkpoint := Some(MainShuttingDown)), s.at.inst);
    RequestedGoesDown(p, id, s.c, s.at.inst);
    ComingGoesDown(p, id, s);
  }

  /** A replica that the pass makes of its copy, and that the spec would make otherwise. */
  ghost predicate MakesAnother(p: Platform, id: Identity, c: Cluster, copy: Instance)
    requires Plain(id, c)
  {
    && c.checkpoint == Some(ReplicaCreated) && Standalone(id, copy)
    && Fresh(p, id, c, copy, Main(id, c).template)
    && p.replica(copy, Main(id, c).template) != p.replica(c.teamcity.value, Main(id, c).template)
    && Stirred(p, id, c)
  }

  lemma MakeGoesDown(p: Platform, id: Identity, c: Cluster, copy: Instance)
    requires Shaped(id, c) && MakesAnother(p, id, c, copy)
    ensures CanGoDown(p, id, System(c, ReplicaMake(copy, Main(id, c).template)))
    decreases id.Replica() in c.sets && c.sets[id.Replica()].terminating
  {
    var s := System(c, ReplicaMake(copy, Main(id, c).template));
    assert |id.Replica()| > |id.main|;
    if id.Replica() in c.sets && c.sets[id.Replica()].terminating {
      var d := Happen(c, Vanish(id.Replica()));
      EventKeepsShape(id, c, Vanish(id.Replica()));
      MakeGoesDown(p, id, d, copy);
      DownAfter(p, id, s, World(Vanish(id.Replica())));
    } else {
      var d := ApplyReplica(p, c, copy, Main(id, c).template);
      assert ReplicaName(copy) == id.Replica();
      NotFreshGoesDown(p, id, d, Crashed);
      assert Call(p, s, true) == System(d, Persist(copy, ReplicaStarting));
      CutOffGoesDown(p, id, System(d, Persist(copy, ReplicaStarting)));
      DownAfter(p, id, s, Op(true));
    }
  }

  lemma MakingGoesDown(p: Platform, id: Identity, s: System)
    requires !s.at.Rest? && WellFormed(s.at) && Shaped(id, s.c) && MakesAnother(p, id, s.c, s.at.inst)
    requires MayMakeReplica(p, s.at, s.c.checkpoint, Main(id, s.c).template)
    requires s.at.ReplicaMake? ==> s.at.template == Main(id, s.c).template
    ensures CanGoDown(p, id, s)
  {
    var copy := s.at.inst;
    var t := System(s.c, ReplicaReadMain(copy));
    MakeGoesDown(p, id, s.c, copy);
    if !s.at.ReplicaMake? {
      assert Call(p, t, true) == System(s.c, ReplicaMake(copy, Main(id, s.c).template));
      DownAfter(p, id, t, Op(true));
    }
    if MayAct(p, s.at, Main(id, s.c).template) {
      ActGoesDown(p, id, s);
    }
  }

  // ---- Edits ----

  /** The system right after an edit. */
  function Edited(s: System, n: Instance): System {
    System(s.c.(teamcity := Some(n)), s.at)
  }

  /** The main node is being replaced, the edit asks for that, some spec can, or the pass is about
      to write: short of this an edit changes nothing that anybody would notice. */
  ghost predicate Stirs(p: Platform, id: Identity, s: System, n: Instance)
    requires id.main in s.c.sets
  {
    Restarting(Main(id, s.c)) || Pending(p, id, s.c, n) || CanRenew(p, id, Main(id, s.c)) || Committed(s)
  }

  /** The one thing that an edit can upset without asking anything of the main node. */
  lemma OnlyReplicaUpset(p: Platform, id: Identity, s: System, n: Instance)
    requires Inv(p, id, s) && Standalone(id, n) && !Pending(p, id, s.c, n)
    requires !Committed(s) && !Safe(p, id, s.c, s.c.checkpoint, n, Main(id, s.c).template)
    ensures s.c.checkpoint == Some(ReplicaCreated) && !Fresh(p, id, s.c, n, Main(id, s.c).template)
  {
  }

  lemma UnsafeNowGoesDown(p: Platform, id: Identity, s: System, n: Instance)
    requires WriteSettles(p) && Inv(p, id, s) && Plain(id, s.c)
    requires Standalone(id, n) && Stirs(p, id, s, n)
    requires !Committed(s) && !Safe(p, id, s.c, s.c.checkpoint, n, Main(id, s.c).template)
    ensures CanGoDown(p, id, Edited(s, n))
  {
    var t := Edited(s, n);
    InvIsHalf(p, id, s);
    if Pending(p, id, s.c, n) {
      UnsafeGoesDown(p, id, t.c, Crashed);
    } else {
      OnlyReplicaUpset(p, id, s, n);
      NotFreshGoesDown(p, id, t.c, Crashed);
    }
    CutOffGoesDown(p, id, t);
  }

  lemma UnsafeBuildGoesDown(p: Platform, id: Identity, s: System, n: Instance)
    requires WriteSettles(p) && Inv(p, id, s) && Plain(id, s.c) && !s.at.Rest?
    requires Standalone(id, n)
    requires Committed(s) || Safe(p, id, s.c, s.c.checkpoint, n, Main(id, s.c).template)
    requires MayBuild(p, s.at, s.c.checkpoint, Main(id, s.c).template)
    requires !Safe(p, id, s.c, s.c.checkpoint, n, Target(p, s.at.inst, Main(id, s.c).template))
    ensures CanGoDown(p, id, Edited(s, n))
  {
    var t := Edited(s, n);
    InvIsHalf(p, id, s);
    if BeforeMainWrite(s.at) {
      BuildGoesDown(p, id, t);
    } else {
      BuildGoesDown(p, id, System(t.c, Protocol.Support(s.at.inst)));
      QuietGoesDown(p, id, t);
    }
  }

  lemma UnsafeShutDownGoesDown(p: Platform, id: Identity, s: System, n: Instance)
    requires WriteSettles(p) && Inv(p, id, s) && Plain(id, s.c) && !s.at.Rest?
    requires Standalone(id, n)
    requires MayShutDown(p, s.at, s.c.checkpoint, Main(id, s.c).template)
    requires !Conforms(p, n, Target(p, s.at.inst, Main(id, s.c).template))
    ensures CanGoDown(p, id, Edited(s, n))
  {
    ShuttingGoesDown(p, id, Edited(s, n));
  }

  lemma UnsafeMakeGoesDown(p: Platform, id: Identity, s: System, n: Instance)
    requires WriteSettles(p) && Inv(p, id, s) && Plain(id, s.c) && !s.at.Rest?
    requires Standalone(id, n) && Stirs(p, id, s, n)
    requires MayMakeReplica(p, s.at, s.c.checkpoint, Main(id, s.c).template)
    requires p.replica(s.at.inst, Main(id, s.c).template) != p.replica(n, Main(id, s.c).template)
    ensures CanGoDown(p, id, Edited(s, n))
  {
    MakingGoesDown(p, id, Edited(s, n));
  }

  lemma BearingEditIsSafe(p: Platform, id: Identity, s: System, n: Instance)
    requires WriteSettles(p) && Inv(p, id, s) && Standalone(id, n) && Bears(p, id, s, n)
    ensures !CanGoDown(p, id, Step(p, s, World(Edit(n))))
  {
    EditKeepsInv(p, id, s, Edit(n));
    SafeWhereInvariant(p, id, Step(p, s, World(Edit(n))));
  }

  /** An edit leads to an outage exactly if the pass at work and the stage of the upgrade do not bear
      it. That some spec can ask for a new template is enough for this to hold of every edit. */
  lemma EditHazard(p: Platform, id: Identity, s: System, n: Instance)
    requires WriteSettles(p) && Inv(p, id, s) && Plain(id, s.c)
    requires Standalone(id, n) && Stirs(p, id, s, n)
    ensures CanGoDown(p, id, Step(p, s, World(Edit(n)))) <==> !Bears(p, id, s, n)
  {
    var k, t := s.c.checkpoint, Main(id, s.c).template;
    assert Step(p, s, World(Edit(n))) == Edited(s, n);
    if Bears(p, id, s, n) {
      BearingEditIsSafe(p, id, s, n);
    } else if !Committed(s) && !Safe(p, id, s.c, k, n, t) {
      UnsafeNowGoesDown(p, id, s, n);
    } else if MayBuild(p, s.at, k, t) && !Safe(p, id, s.c, k, n, Target(p, s.at.inst, t)) {
      UnsafeBuildGoesDown(p, id, s, n);
    } else if MayShutDown(p, s.at, k, t) && !Safe(p, id, s.c, Some(MainShuttingDown), n, Target(p, s.at.inst, t)) {
      UnsafeShutDownGoesDown(p, id, s, n);
    } else {
      UnsafeMakeGoesDown(p, id, s, n);
    }
  }

  /** Without a checkpoint: exactly if the detector overlooks what the builder would write. */
  lemma BlindEdit(p: Platform, id: Identity, s: System, n: Instance)
    requires WriteSettles(p) && Inv(p, id, s) && Plain(id, s.c)
    requires s.at.Rest? && s.c.checkpoint.None? && Standalone(id, n)
    ensures CanGoDown(p, id, Step(p, s, World(Edit(n)))) <==> !Sees(p, n, Main(id, s.c).template)
  {
    if Sees(p, n, Main(id, s.c).template) {
      BearingEditIsSafe(p, id, s, n);
    } else {
      EditHazard(p, id, s, n);
    }
  }

  /** Once MainShuttingDown is persisted: exactly if the main node would have to be written again. */
  lemma LateEdit(p: Platform, id: Identity, s: System, n: Instance)
    requires WriteSettles(p) && Inv(p, id, s) && Plain(id, s.c)
    requires s.at.Rest? && Standalone(id, n)
    requires s.c.checkpoint.Some? && Rank(s.c.checkpoint.value) >= Rank(MainShuttingDown)
    ensures CanGoDown(p, id, Step(p, s, World(Edit(n)))) <==> Pending(p, id, s.c, n)
  {
    if Pending(p, id, s.c, n) {
      EditHazard(p, id, s, n);
    } else {
      BearingEditIsSafe(p, id, s, n);
    }
  }

  /** At ReplicaCreated, with a live replica: exactly if the replica would be made anew. */
  lemma EditAtReplicaCreated(p: Platform, id: Identity, s: System, n: Instance)
    requires WriteSettles(p) && Inv(p, id, s) && Plain(id, s.c)
    requires s.at.Rest? && s.c.checkpoint == Some(ReplicaCreated) && Standalone(id, n)
    requires id.Replica() in s.c.sets && !s.c.sets[id.Replica()].terminating
    requires var x := Main(id, s.c);
             Stirs(p, id, s, n) && Lands(p, n, x, x.template) && Sees(p, n, x.template)
    ensures CanGoDown(p, id, Step(p, s, World(Edit(n)))) <==>
            s.c.sets[id.Replica()].template != p.replica(n, Main(id, s.c).template)
  {
    EditHazard(p, id, s, n);
  }

  /** At ReplicaReady, between passes: exactly if the write goes back to a template that is still
      being rolled away from. */
  lemma EditAtReplicaReady(p: Platform, id: Identity, s: System, n: Instance)
    requires WriteSettles(p) && Inv(p, id, s) && Plain(id, s.c)
    requires s.at.Rest? && s.c.checkpoint == Some(ReplicaReady) && Standalone(id, n)
    ensures CanGoDown(p, id, Step(p, s, World(Edit(n)))) <==> !Lands(p, n, Main(id, s.c), Main(id, s.c).template)
  {
    if Pending(p, id, s.c, n) {
      EditHazard(p, id, s, n);
    } else {
      BearingEditIsSafe(p, id, s, n);
    }
  }

  lemma BearsWhileShuttingDown(p: Platform, id: Identity, s: System, n: Instance)
    requires Inv(p, id, s) && (s.at.Persist? || s.at.PersistUpdate?) && s.c.checkpoint == Some(ReplicaReady)
    requires Lands(p, n, Main(id, s.c), Main(id, s.c).template)
    requires Conforms(p, n, Target(p, s.at.inst, Main(id, s.c).template))
    ensures Bears(p, id, s, n)
  {
    InvCouples(p, id, s);
  }

  /** At ReplicaReady, in a pass that will persist MainShuttingDown: exactly if the edit goes back to
      a template that is still being rolled away from, or if the main node, written from the copy
      that the pass holds, is not yet what the edit asks for. */
  lemma EditWhileShuttingDown(p: Platform, id: Identity, s: System, n: Instance)
    requires WriteSettles(p) && Inv(p, id, s) && Plain(id, s.c)
    requires (s.at.Persist? || s.at.PersistUpdate?) && s.c.checkpoint == Some(ReplicaReady) && Standalone(id, n)
    ensures CanGoDown(p, id, Step(p, s, World(Edit(n)))) <==>
            || !Lands(p, n, Main(id, s.c), Main(id, s.c).template)
            || !Conforms(p, n, Target(p, s.at.inst, Main(id, s.c).template))
  {
    assert Step(p, s, World(Edit(n))) == Edited(s, n);
    if !Conforms(p, n, Target(p, s.at.inst, Main(id, s.c).template)) {
      UnsafeShutDownGoesDown(p, id, s, n);
    } else if !Lands(p, n, Main(id, s.c), Main(id, s.c).template) {
      UnsafeNowGoesDown(p, id, s, n);
    } else {
      BearsWhileShuttingDown(p, id, s, n);
      BearingEditIsSafe(p, id, s, n);
    }
  }

  lemma BearsWhileCommitted(p: Platform, id: Identity, s: System, n: Instance)
    requires Inv(p, id, s) && Committed(s)
    ensures Bears(p, id, s, n) <==> Conforms(p, n, Target(p, s.at.inst, Main(id, s.c).template))
  {
    InvCouples(p, id, s);
  }

  /** Between persisting MainShuttingDown and the main write: exactly if what the pass writes does
      not do for the edit, be it a revert to the template that is still stored. */
  lemma EditWhileCommitted(p: Platform, id: Identity, s: System, n: Instance)
    requires WriteSettles(p) && Inv(p, id, s) && Plain(id, s.c)
    requires Committed(s) && Standalone(id, n)
    ensures CanGoDown(p, id, Step(p, s, World(Edit(n)))) <==>
            !Conforms(p, n, Target(p, s.at.inst, Main(id, s.c).template))
  {
    EditHazard(p, id, s, n);
    BearsWhileCommitted(p, id, s, n);
  }

  // ---- Calls ----

  /** A failed read of the detector, which the operator swallows, leads to an outage exactly if the
      builders were not safe to run. */
  lemma FailedDetection(p: Platform, id: Identity, s: System)
    requires WriteSettles(p) && Inv(p, id, s) && Plain(id, s.c) && s.at.Detect?
    ensures CanGoDown(p, id, Step(p, s, Op(false))) <==> !SafeToBuild(p, id, s)
  {
    var t := Step(p, s, Op(false));
    assert t == System(s.c, Protocol.Support(s.at.inst));
    if SafeToBuild(p, id, s) {
      StepKeepsInv(p, id, s, Op(false));
      SafeWhereInvariant(p, id, t);
    } else {
      InvIsHalf(p, id, s);
      BuildGoesDown(p, id, t);
    }
  }

  /** A pass that breaks off between MainShuttingDown and the main write: exactly if there was
      something to write. */
  lemma AbandonedPass(p: Platform, id: Identity, s: System, a: Act)
    requires WriteSettles(p) && Inv(p, id, s) && Plain(id, s.c)
    requires Committed(s) && a in {Crash, Op(false)}
    ensures CanGoDown(p, id, Step(p, s, a)) <==> Pending(p, id, s.c, s.c.teamcity.value)
  {
    var t := Step(p, s, a);
    if Pending(p, id, s.c, s.c.teamcity.value) {
      assert t.c == s.c && t.at.Rest?;
      ShuttingDownGoesDown(p, id, s.c, t.at.outcome);
    } else {
      StepKeepsInv(p, id, s, a);
      SafeWhereInvariant(p, id, t);
    }
  }

  lemma TornMainReadyGoesDown(p: Platform, id: Identity, c: Cluster, o: Outcome)
    requires Plain(id, c) && c.checkpoint == Some(MainReady)
    requires Restarting(Main(id, c)) && 0 < Main(id, c).observed
    ensures CanGoDown(p, id, System(c, Rest(o)))
  {
    assert |id.Replica()| > |id.main|;
    forall o' ensures CanGoDown(p, id, System(Pass(p, id, c), Rest(o'))) {
      MainGoesDown(p, id, System(Pass(p, id, c), Rest(o')));
    }
    DownAfterPass(p, id, c, o);
  }

  lemma TornCertificateSeen(p: Platform, id: Identity, s: System)
    requires Inv(p, id, s) && Plain(id, s.c) && TornCertificate(id, s)
    ensures var t := Step(p, s, World(Observe(id.main)));
            && t.at == s.at && Plain(id, t.c) && t.c.checkpoint == Some(MainShuttingDown)
            && Restarting(Main(id, t.c)) && 0 < Main(id, t.c).observed
            && Call(p, t, true) == System(t.c, Persist(s.at.inst, MainReady))
  {
    EventKeepsShape(id, s.c, Observe(id.main));
  }

  lemma TornRequestGoesDown(p: Platform, id: Identity, c: Cluster, copy: Instance)
    requires Plain(id, c) && c.checkpoint == Some(MainShuttingDown)
    requires Restarting(Main(id, c)) && 0 < Main(id, c).observed
    ensures CanGoDown(p, id, System(c, Persist(copy, MainReady)))
  {
    var d := c.(checkpoint := Some(MainReady));
    assert Main(id, d) == Main(id, c);
    TornMainReadyGoesDown(p, id, d, Requeued);
    PersistedGoesDown(p, id, c, copy, MainReady);
    RequestGoesDown(p, id, c, copy, MainReady);
  }

  /** The second read of the certificate, made after the controller has seen a newer template. */
  lemma TornCertificateGoesDown(p: Platform, id: Identity, s: System)
    requires Inv(p, id, s) && Plain(id, s.c) && TornCertificate(id, s)
    ensures CanGoDown(p, id, Step(p, s, World(Observe(id.main))))
  {
    var t := Step(p, s, World(Observe(id.main)));
    TornCertificateSeen(p, id, s);
    TornRequestGoesDown(p, id, t.c, s.at.inst);
    DownAfter(p, id, t, Op(true));
  }

  /** A look of the controller at the main node between the two reads that certify its rollout:
      exactly if the revisions had been read too early. */
  lemma TornReadCertifiesTooEarly(p: Platform, id: Identity, s: System)
    requires WriteSettles(p) && Inv(p, id, s) && Plain(id, s.c)
    ensures CanGoDown(p, id, Step(p, s, World(Observe(id.main)))) <==> TornCertificate(id, s)
  {
    if TornCertificate(id, s) {
      TornCertificateGoesDown(p, id, s);
    } else {
      StepKeepsInv(p, id, s, World(Observe(id.main)));
      SafeWhereInvariant(p, id, Step(p, s, World(Observe(id.main))));
    }
  }

  // ---- A replica that is still stopping ----

  lemma DyingGoesDown(p: Platform, id: Identity, c: Cluster, o: Outcome)
    requires Plain(id, c) && Pending(p, id, c, c.teamcity.value) && 0 < Main(id, c).observed && Settled(Main(id, c))
    requires c.checkpoint in {Some(ReplicaStarting), Some(ReplicaReady)}
    requires !NoDyingReplica(id, c)
    ensures CanGoDown(p, id, System(c, Rest(o)))
    decreases 4 - Rank(c.checkpoint.value)
  {
    assert |id.Replica()| > |id.main|;
    var d := Pass(p, id, c);
    forall o' ensures CanGoDown(p, id, System(d, Rest(o'))) {
      if c.checkpoint == Some(ReplicaStarting) {
        assert d == c.(checkpoint := Some(ReplicaReady));
        DyingGoesDown(p, id, d, o');
      } else {
        assert d.sets[id.Replica()] == c.sets[id.Replica()];
        MainGoesDown(p, id, System(d, Rest(o')));
      }
    }
    DownAfterPass(p, id, c, o);
  }

  lemma MadeOfDyingReplica(p: Platform, id: Identity, s: System, ok: bool)
    requires Inv(p, id, s) && Plain(id, s.c)
    requires s.at.ReplicaMake? && Pending(p, id, s.c, s.c.teamcity.value) && !NoDyingReplica(id, s.c)
    ensures var t := Step(p, s, Op(ok));
            && t.at == Persist(s.at.inst, ReplicaStarting) && t.c.checkpoint == Some(ReplicaCreated)
            && Plain(id, t.c) && Main(id, t.c) == Main(id, s.c) && t.c.teamcity == s.c.teamcity
            && Settled(Main(id, s.c)) && !NoDyingReplica(id, t.c)
  {
    assert |id.Replica()| > |id.main|;
    assert ReplicaName(s.at.inst) == id.Replica();
    CallByGroup(p, s, ok);
  }

  /** With the main node still to be written, the call that makes the replica leads to an outage
      exactly if the replica of the last upgrade still answers while it is being deleted: it is
      taken for the new one, whether or not the call succeeds. */
  lemma DyingReplicaIsTrusted(p: Platform, id: Identity, s: System, ok: bool)
    requires WriteSettles(p) && Inv(p, id, s) && Plain(id, s.c)
    requires s.at.ReplicaMake? && Pending(p, id, s.c, s.c.teamcity.value)
    ensures CanGoDown(p, id, Step(p, s, Op(ok))) <==> !NoDyingReplica(id, s.c)
  {
    var t := Step(p, s, Op(ok));
    if NoDyingReplica(id, s.c) {
      StepKeepsInv(p, id, s, Op(ok));
      SafeWhereInvariant(p, id, t);
    } else {
      MadeOfDyingReplica(p, id, s, ok);
      DyingGoesDown(p, id, t.c.(checkpoint := Some(ReplicaStarting)), Requeued);
      PersistedGoesDown(p, id, t.c, s.at.inst, ReplicaStarting);
      RequestGoesDown(p, id, t.c, s.at.inst, ReplicaStarting);
    }
  }

  // ---- The torn certificate is always within reach ----

  /** An upgrade that still has its main node to write, and whose replica has not been lost. */
  predicate Underway(p: Platform, id: Identity, c: Cluster) {
    && Shaped(id, c)
    && Settled(Main(id, c)) && Pending(p, id, c, c.teamcity.value)
    && match c.checkpoint
       case None => ReplicaLeaving(id, c) && Sees(p, c.teamcity.value, Main(id, c).template)
       case Some(ReplicaCreated) => Fresh(p, id, c, c.teamcity.value, Main(id, c).template)
       case Some(ReplicaStarting) => id.Replica() in c.sets && !c.sets[id.Replica()].terminating
       case Some(ReplicaReady) => true
       case _ => false
  }

  lemma RevisionReadTears(p: Platform, id: Identity, c: Cluster)
    requires Plain(id, c)
    requires var x := c.sets[id.main]; IsUpdateFinished(x) && x.update != x.template
    ensures CanReach(p, id, System(c, CertRevision(c.teamcity.value)), Torn(id))
  {
    var s := System(c, CertRevision(c.teamcity.value));
    var t := System(c, CertGeneration(c.teamcity.value, true));
    assert Call(p, s, true) == t;
    ReachNow(p, id, t, Torn(id));
    ReachAfter(p, id, s, Torn(id), Op(true));
  }

  /** Once the main node is rewritten, the next pass reads its revisions too early. */
  lemma ShuttingDownTears(p: Platform, id: Identity, c: Cluster, o: Outcome)
    requires Plain(id, c) && c.checkpoint == Some(MainShuttingDown)
    requires var x := c.sets[id.main]; IsUpdateFinished(x) && x.update != x.template
    ensures CanReach(p, id, System(c, Rest(o)), Torn(id))
  {
    var t := System(c, AfterOpening(p, id, c));
    assert t.at == CertRevision(c.teamcity.value);
    RevisionReadTears(p, id, c);
    OpeningCalls(p, id, c, o);
    ReachAfterLead(p, id, System(c, Rest(o)), Torn(id), t);
  }

  /** A replica that is leaving has gone. */
  function Cleared(id: Identity, c: Cluster): Cluster {
    if c.checkpoint in {None, Some(ReplicaCreated)} then Happen(c, Vanish(id.Replica()))
    else if c.checkpoint == Some(ReplicaStarting) then Started(id, c)
    else c
  }

  lemma ClearedIsUnderway(p: Platform, id: Identity, c: Cluster)
    requires Underway(p, id, c)
    ensures var d := Cleared(id, c);
            && Underway(p, id, d) && d.checkpoint == c.checkpoint
            && (id.Replica() in d.sets && d.checkpoint in {None, Some(ReplicaCreated)} ==>
                  !d.sets[id.Replica()].terminating)
            && (d.checkpoint == Some(ReplicaStarting) ==> ReplicaUp(id, d))
  {
    assert |id.Replica()| > |id.main|;
    if c.checkpoint in {None, Some(ReplicaCreated)} {
      EventKeepsShape(id, c, Vanish(id.Replica()));
    } else if c.checkpoint == Some(ReplicaStarting) {
      StartedAnswers(id, c);
    }
  }

  lemma ReachAfterClearing(p: Platform, id: Identity, c: Cluster, o: Outcome)
    requires CanReach(p, id, System(Cleared(id, c), Rest(o)), Torn(id))
    ensures CanReach(p, id, System(c, Rest(o)), Torn(id))
  {
    var s := System(c, Rest(o));
    if c.checkpoint in {None, Some(ReplicaCreated)} {
      ReachAfter(p, id, s, Torn(id), World(Vanish(id.Replica())));
    } else if c.checkpoint == Some(ReplicaStarting) {
      ReachAfter(p, id, System(Happen(c, Observe(id.Replica())), Rest(o)), Torn(id), World(PodUp(id.Replica())));
      ReachAfter(p, id, s, Torn(id), World(Observe(id.Replica())));
    }
  }

  lemma PassGetsOn(p: Platform, id: Identity, c: Cluster)
    requires Underway(p, id, c) && c.checkpoint != Some(ReplicaReady)
    requires id.Replica() in c.sets && c.checkpoint in {None, Some(ReplicaCreated)} ==>
               !c.sets[id.Replica()].terminating
    requires c.checkpoint == Some(ReplicaStarting) ==> ReplicaUp(id, c)
    ensures var d := Pass(p, id, c); Underway(p, id, d) && d.checkpoint.Some?
    ensures var d := Pass(p, id, c); c.checkpoint.Some? ==> Rank(d.checkpoint.value) == Rank(c.checkpoint.value) + 1
  {
    assert |id.Replica()| > |id.main|;
    assert ReplicaName(c.teamcity.value) == id.Replica();
  }

  /** From every stage of every upgrade before the main node is written, steps that are all
      admissible reach the state in which one look of the controller tears the certificate. */
  lemma {:induction false} EveryUpgradeCanTear(p: Platform, id: Identity, c: Cluster, o: Outcome)
    requires WriteSettles(p) && Underway(p, id, c)
    ensures CanReach(p, id, System(c, Rest(o)), Torn(id))
    decreases if c.checkpoint.None? then 5 else 4 - Rank(c.checkpoint.value)
  {
    var e := Cleared(id, c);
    ClearedIsUnderway(p, id, c);
    var d := Pass(p, id, e);
    if e.checkpoint != Some(ReplicaReady) {
      PassGetsOn(p, id, e);
    }
    forall o' ensures CanReach(p, id, System(d, Rest(o')), Torn(id)) {
      if c.checkpoint == Some(ReplicaReady) {
        ShuttingDownTears(p, id, d, o');
      } else {
        EveryUpgradeCanTear(p, id, d, o');
      }
    }
    ReachAfterPass(p, id, e, Torn(id), o);
    ReachAfterClearing(p, id, c, o);
  }
}
