/** Whole reconcile passes of a standalone instance in which every call succeeds and nothing else
    happens in between: what the small steps add up to. */
module Passes {
  import opened PodTree
  import opened PodTemplate
  import opened Stages
  import opened Cluster
  import opened Protocol
  import opened SingleNode

  ghost function Calls(p: Platform, s: System, n: nat): (t: System)
    requires WellFormed(s.at)
    ensures WellFormed(t.at)
    decreases n
  {
    if n == 0 then s else Calls(p, Call(p, s, true), n - 1)
  }

  /** Within one pass, successful calls with nothing in between take the system from `s` to `t`. */
  ghost predicate Becomes(p: Platform, s: System, t: System) {
    WellFormed(s.at) && exists n: nat :: BecomesIn(p, s, t, n)
  }

  ghost predicate BecomesIn(p: Platform, s: System, t: System, n: nat)
    requires WellFormed(s.at)
  {
    Calls(p, s, n) == t && forall k | 0 < k < n :: !Calls(p, s, k).at.Rest?
  }

  lemma BecomesAtOnce(p: Platform, s: System)
    requires WellFormed(s.at)
    ensures Becomes(p, s, s)
  {
    assert BecomesIn(p, s, s, 0);
  }

  lemma BecomesNext(p: Platform, s: System, t: System)
    requires WellFormed(s.at) && Becomes(p, Call(p, s, true), t)
    requires Call(p, s, true) == t || !Call(p, s, true).at.Rest?
    ensures Becomes(p, s, t)
  {
    var u := Call(p, s, true);
    if u == t {
      assert Calls(p, u, 0) == u;
      assert BecomesIn(p, s, t, 1);
    } else {
      var n: nat :| BecomesIn(p, u, t, n);
      forall k | 0 < k < n + 1 ensures !Calls(p, s, k).at.Rest? {
        assert Calls(p, s, k) == Calls(p, u, k - 1);
        assert Calls(p, u, 0) == u;
      }
      assert BecomesIn(p, s, t, n + 1);
    }
  }

  lemma BecomesThen(p: Platform, s: System, t: System, u: System)
    requires Becomes(p, s, t) && Becomes(p, t, u) && !t.at.Rest?
    ensures Becomes(p, s, u)
  {
    var m: nat :| BecomesIn(p, s, t, m);
    var n: nat :| BecomesIn(p, t, u, n);
    forall k | 0 < k < m + n ensures !Calls(p, s, k).at.Rest? {
      if m < k {
        CallsCompose(p, s, m, k - m);
      }
    }
    CallsCompose(p, s, m, n);
    assert BecomesIn(p, s, u, m + n);
  }

  /** Within one pass, successful calls with nothing in between take the system from `s` to `t`,
      and each of them is one that the availability theorem admits. */
  ghost predicate Leads(p: Platform, id: Identity, s: System, t: System) {
    WellFormed(s.at) && exists n: nat :: LeadsIn(p, id, s, t, n)
  }

  ghost predicate LeadsIn(p: Platform, id: Identity, s: System, t: System, n: nat)
    requires WellFormed(s.at)
  {
    && 0 < n
    && Calls(p, s, n) == t
    && forall k | 0 <= k < n :: Proper(p, id, Calls(p, s, k), k)
  }

  predicate Proper(p: Platform, id: Identity, s: System, k: nat) {
    (0 < k ==> !s.at.Rest?) && Admissible(p, id, s, Op(true))
  }

  lemma {:induction false} CallsCompose(p: Platform, s: System, m: nat, n: nat)
    requires WellFormed(s.at)
    ensures Calls(p, s, m + n) == Calls(p, Calls(p, s, m), n)
    decreases m
  {
    if m > 0 {
      CallsCompose(p, Call(p, s, true), m - 1, n);
    }
  }

  lemma OneCall(p: Platform, id: Identity, s: System)
    requires WellFormed(s.at) && Admissible(p, id, s, Op(true))
    ensures Leads(p, id, s, Call(p, s, true))
  {
    assert Calls(p, Call(p, s, true), 0) == Call(p, s, true);
    assert Calls(p, s, 0) == s;
    assert LeadsIn(p, id, s, Call(p, s, true), 1);
  }

  lemma ShiftedProper(p: Platform, id: Identity, s: System, t: System, m: nat, k: nat, n: nat)
    requires WellFormed(s.at) && Calls(p, s, m) == t && !t.at.Rest?
    requires k < n && Proper(p, id, Calls(p, t, k), k)
    ensures Proper(p, id, Calls(p, s, m + k), m + k)
  {
    CallsCompose(p, s, m, k);
  }

  lemma Then(p: Platform, id: Identity, s: System, t: System, u: System)
    requires Leads(p, id, s, t) && Leads(p, id, t, u) && !t.at.Rest?
    ensures Leads(p, id, s, u)
  {
    var m: nat :| LeadsIn(p, id, s, t, m);
    var n: nat :| LeadsIn(p, id, t, u, n);
    CallsCompose(p, s, m, n);
    forall k | 0 <= k < m + n ensures Proper(p, id, Calls(p, s, k), k) {
      if m <= k {
        ShiftedProper(p, id, s, t, m, k - m, n);
      }
    }
    assert LeadsIn(p, id, s, u, m + n);
  }

  lemma TwoCalls(p: Platform, id: Identity, s: System)
    requires WellFormed(s.at) && !Call(p, s, true).at.Rest?
    requires Admissible(p, id, s, Op(true)) && Admissible(p, id, Call(p, s, true), Op(true))
    ensures Leads(p, id, s, Call(p, Call(p, s, true), true))
  {
    var t := Call(p, s, true);
    OneCall(p, id, s);
    OneCall(p, id, t);
    Then(p, id, s, t, Call(p, t, true));
  }

  /** A cluster with a standalone instance, no leftovers of secondaries, and no drift. */
  predicate Plain(id: Identity, c: Cluster) {
    && c.teamcity.Some? && Standalone(id, c.teamcity.value)
    && id.main in c.sets && c.sets[id.main].serviceName == id.serviceName
    && forall n | n in c.sets :: c.sets[n].role != SecondaryRole
  }

  predicate Fires(p: Platform, id: Identity, c: Cluster)
    requires Plain(id, c)
  {
    p.detect(c.teamcity.value.main.desired, c.sets[id.main].template)
  }

  /** The builder pass: everything is brought to what the spec says. */
  function Build(p: Platform, id: Identity, c: Cluster): Cluster
    requires Plain(id, c)
  {
    var x, spec := c.sets[id.main], c.teamcity.value;
    c.(support := spec.support, sets := c.sets[id.main := Store(x, p.write(spec.main.desired, x.template))])
  }

  predicate IsCertified(x: StatefulSet) {
    IsUpdateFinished(x) && IsNewestGeneration(x)
  }

  /** One pass, stage by stage. A replica that is not there at ReplicaStarting fails the pass. */
  function Pass(p: Platform, id: Identity, c: Cluster): Cluster
    requires Plain(id, c)
  {
    var x, spec := c.sets[id.main], c.teamcity.value;
    if c.checkpoint.None? then
      if Fires(p, id, c) then c.(checkpoint := Some(ReplicaCreated)) else Build(p, id, c)
    else match c.checkpoint.value
      case UpdateInitiated => c.(checkpoint := Some(ReplicaCreated))
      case ReplicaCreated => ApplyReplica(p, c, spec, x.template).(checkpoint := Some(ReplicaStarting))
      case ReplicaStarting =>
        if id.Replica() in c.sets && c.sets[id.Replica()].ready then c.(checkpoint := Some(ReplicaReady)) else c
      case ReplicaReady => Build(p, id, c.(checkpoint := Some(MainShuttingDown)))
      case MainShuttingDown => if IsCertified(x) then c.(checkpoint := Some(MainReady)) else c
      case MainReady => Remove(c, id.Replica()).(checkpoint := Some(UpdateFinished))
      case UpdateFinished => Build(p, id, c.(checkpoint := None))
  }

  /** What the pass does once the detector has spoken. */
  function AfterOpening(p: Platform, id: Identity, c: Cluster): Point
    requires Plain(id, c)
  {
    if c.checkpoint.Some? then Dispatch(c.teamcity.value, c.checkpoint.value)
    else if Fires(p, id, c) then Persist(c.teamcity.value, ReplicaCreated)
    else Protocol.Support(c.teamcity.value)
  }

  lemma OpeningCalls(p: Platform, id: Identity, c: Cluster, o: Outcome)
    requires Plain(id, c)
    ensures Leads(p, id, System(c, Rest(o)), System(c, AfterOpening(p, id, c)))
  {
    var spec := c.teamcity.value;
    var s := System(c, Rest(o));
    var s1 := System(c, ReadOngoing(spec));
    var s2 := System(c, Detect(spec, c.checkpoint.Some?, 0));
    assert AllNodes(spec) == [spec.main];
    var s3 := System(c, AfterDetect(spec, Fires(p, id, c), c.checkpoint.Some?));
    OneCall(p, id, s);
    OneCall(p, id, s1);
    Then(p, id, s, s1, s2);
    OneCall(p, id, s2);
    Then(p, id, s, s2, s3);
    if s3.at.ReadStage? {
      OneCall(p, id, s3);
      Then(p, id, s, s3, Call(p, s3, true));
    }
  }

  lemma PersistCalls(p: Platform, id: Identity, c: Cluster, inst: Instance, desired: Stage)
    requires c.checkpoint.Some? ==> CanChange(c.checkpoint.value, desired)
    ensures Leads(p, id, System(c, Persist(inst, desired)),
                  System(c.(checkpoint := Some(desired)), AfterPersist(inst, desired)))
  {
    TwoCalls(p, id, System(c, Persist(inst, desired)));
  }

  lemma MainCalls(p: Platform, id: Identity, c: Cluster)
    requires Plain(id, c)
    ensures Leads(p, id, System(c, Protocol.Support(c.teamcity.value)),
                  System(Build(p, id, c), Obsolete(c.teamcity.value)))
  {
    var spec := c.teamcity.value;
    var s := System(c, Protocol.Support(spec));
    var s2 := System(c.(support := spec.support), MainWrite(spec));
    TwoCalls(p, id, s);
    OneCall(p, id, s2);
    Then(p, id, s, s2, Call(p, s2, true));
  }

  lemma ClosingCalls(p: Platform, id: Identity, c: Cluster)
    requires Plain(id, c)
    ensures Leads(p, id, System(c, Obsolete(c.teamcity.value)),
                  System(c, Rest(if c.checkpoint.Some? then Requeued else Finished)))
  {
    assert ObsoleteNames(c, c.teamcity.value) == {};
    TwoCalls(p, id, System(c, Obsolete(c.teamcity.value)));
  }

  /** How a pass ends that went through the builders. */
  function Built(p: Platform, id: Identity, c: Cluster): System
    requires Plain(id, c)
  {
    System(Build(p, id, c), Rest(if c.checkpoint.Some? then Requeued else Finished))
  }

  lemma BuildCalls(p: Platform, id: Identity, c: Cluster)
    requires Plain(id, c)
    ensures Leads(p, id, System(c, Protocol.Support(c.teamcity.value)), Built(p, id, c))
  {
    MainCalls(p, id, c);
    ClosingCalls(p, id, Build(p, id, c));
    var s, t := System(c, Protocol.Support(c.teamcity.value)), System(Build(p, id, c), Obsolete(c.teamcity.value));
    Then(p, id, s, t, Built(p, id, c));
  }

  /** The request for `desired` from cluster `d`, reached from `s`, ends the pass. */
  lemma PersistEnds(p: Platform, id: Identity, s: System, d: Cluster, inst: Instance, desired: Stage)
    requires Leads(p, id, s, System(d, Persist(inst, desired)))
    requires desired != MainShuttingDown
    requires d.checkpoint.Some? ==> CanChange(d.checkpoint.value, desired)
    ensures Leads(p, id, s, System(d.(checkpoint := Some(desired)), Rest(Requeued)))
  {
    PersistCalls(p, id, d, inst, desired);
    Then(p, id, s, System(d, Persist(inst, desired)), System(d.(checkpoint := Some(desired)), Rest(Requeued)));
  }

  /** From the handler of the stage the pass runs to its end. */
  ghost predicate Handled(p: Platform, id: Identity, c: Cluster)
    requires Plain(id, c) && c.checkpoint.Some?
  {
    exists o :: Leads(p, id, System(c, Dispatch(c.teamcity.value, c.checkpoint.value)), System(Pass(p, id, c), Rest(o)))
  }

  lemma HandleReplicaCreated(p: Platform, id: Identity, c: Cluster)
    requires Plain(id, c) && c.checkpoint == Some(ReplicaCreated) && NoDyingReplica(id, c)
    ensures Handled(p, id, c)
  {
    var spec := c.teamcity.value;
    var d := ApplyReplica(p, c, spec, c.sets[id.main].template);
    TwoCalls(p, id, System(c, ReplicaReadMain(spec)));
    PersistEnds(p, id, System(c, ReplicaReadMain(spec)), d, spec, ReplicaStarting);
  }

  lemma HandleReplicaStarting(p: Platform, id: Identity, c: Cluster)
    requires Plain(id, c) && c.checkpoint == Some(ReplicaStarting)
    ensures Handled(p, id, c)
  {
    var spec := c.teamcity.value;
    assert ReplicaName(spec) == id.Replica();
    OneCall(p, id, System(c, ReplicaPoll(spec)));
    if id.Replica() in c.sets && c.sets[id.Replica()].ready {
      PersistEnds(p, id, System(c, ReplicaPoll(spec)), c, spec, ReplicaReady);
    }
  }

  lemma HandleReplicaReady(p: Platform, id: Identity, c: Cluster)
    requires Plain(id, c) && c.checkpoint == Some(ReplicaReady)
    ensures Handled(p, id, c)
  {
    var spec, d := c.teamcity.value, c.(checkpoint := Some(MainShuttingDown));
    PersistCalls(p, id, c, spec, MainShuttingDown);
    BuildCalls(p, id, d);
    Then(p, id, System(c, Persist(spec, MainShuttingDown)), System(d, Protocol.Support(spec)), Built(p, id, d));
  }

  lemma HandleMainShuttingDown(p: Platform, id: Identity, c: Cluster)
    requires Plain(id, c) && c.checkpoint == Some(MainShuttingDown)
    ensures Handled(p, id, c)
  {
    var spec := c.teamcity.value;
    TwoCalls(p, id, System(c, CertRevision(spec)));
    if IsCertified(c.sets[id.main]) {
      PersistEnds(p, id, System(c, CertRevision(spec)), c, spec, MainReady);
    }
  }

  lemma HandleMainReady(p: Platform, id: Identity, c: Cluster)
    requires Plain(id, c) && c.checkpoint == Some(MainReady)
    ensures Handled(p, id, c)
  {
    var spec := c.teamcity.value;
    assert ReplicaName(spec) == id.Replica();
    if id.Replica() in c.sets {
      TwoCalls(p, id, System(c, ReplicaLookup(spec)));
    } else {
      OneCall(p, id, System(c, ReplicaLookup(spec)));
    }
    PersistEnds(p, id, System(c, ReplicaLookup(spec)), Remove(c, id.Replica()), spec, UpdateFinished);
  }

  lemma HandleUpdateFinished(p: Platform, id: Identity, c: Cluster)
    requires Plain(id, c) && c.checkpoint == Some(UpdateFinished)
    ensures Handled(p, id, c)
  {
    var spec, d := c.teamcity.value, c.(checkpoint := None);
    TwoCalls(p, id, System(c, DropRead(spec)));
    BuildCalls(p, id, d);
    Then(p, id, System(c, DropRead(spec)), System(d, Protocol.Support(spec)), Built(p, id, d));
  }

  lemma HandleStage(p: Platform, id: Identity, c: Cluster)
    requires Plain(id, c) && c.checkpoint.Some?
    requires c.checkpoint == Some(ReplicaCreated) ==> NoDyingReplica(id, c)
    ensures Handled(p, id, c)
  {
    match c.checkpoint.value
    case UpdateInitiated =>
      PersistCalls(p, id, c, c.teamcity.value, ReplicaCreated);
    case ReplicaCreated => HandleReplicaCreated(p, id, c);
    case ReplicaStarting => HandleReplicaStarting(p, id, c);
    case ReplicaReady => HandleReplicaReady(p, id, c);
    case MainShuttingDown => HandleMainShuttingDown(p, id, c);
    case MainReady => HandleMainReady(p, id, c);
    case UpdateFinished => HandleUpdateFinished(p, id, c);
  }

  /** The big step is one whole pass of small steps. */
  lemma PassIsCalls(p: Platform, id: Identity, c: Cluster, o: Outcome)
    requires Plain(id, c)
    requires c.checkpoint == Some(ReplicaCreated) ==> NoDyingReplica(id, c)
    ensures exists o' :: Leads(p, id, System(c, Rest(o)), System(Pass(p, id, c), Rest(o')))
  {
    var s, t := System(c, Rest(o)), System(c, AfterOpening(p, id, c));
    OpeningCalls(p, id, c, o);
    if c.checkpoint.Some? {
      HandleStage(p, id, c);
      var o' :| Leads(p, id, t, System(Pass(p, id, c), Rest(o')));
      Then(p, id, s, t, System(Pass(p, id, c), Rest(o')));
    } else if Fires(p, id, c) {
      PersistEnds(p, id, s, c, c.teamcity.value, ReplicaCreated);
    } else {
      BuildCalls(p, id, c);
      Then(p, id, s, t, Built(p, id, c));
    }
  }
}
