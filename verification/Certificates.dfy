/** When "rolled out and ready" may be concluded from two reads of a StatefulSet's status. */
module Certificates {
  import opened PodTree
  import opened PodTemplate
  import opened Stages
  import opened Cluster
  import opened Protocol
  import opened SingleNode
  import MultiNode

  /** The controller and the kubelet, between two reads of one StatefulSet that nobody writes and
      whose pod does not fail. */
  predicate Unforced(name: string, es: seq<Event>) {
    forall i | 0 <= i < |es| :: !es[i].Edit? && !(es[i].PodFailure? && es[i].name == name)
  }

  lemma EventKeepsRolling(id: Identity, c: Cluster, e: Event)
    requires id.main in c.sets && Rolling(id, c.sets[id.main])
    requires !e.Edit? && !(e.PodFailure? && e.name == id.main)
    ensures var d := Happen(c, e);
            && id.main in d.sets && Rolling(id, d.sets[id.main])
            && d.sets[id.main].template == c.sets[id.main].template
            && d.sets[id.main].generation == c.sets[id.main].generation
            && (IsNewestGeneration(c.sets[id.main]) ==> IsNewestGeneration(d.sets[id.main]))
            && (Settled(c.sets[id.main]) ==> Settled(d.sets[id.main]))
  {
  }

  lemma {:induction false} EventsKeepRolling(id: Identity, c: Cluster, es: seq<Event>)
    requires id.main in c.sets && Rolling(id, c.sets[id.main]) && Unforced(id.main, es)
    ensures var d := HappenAll(c, es);
            && id.main in d.sets && Rolling(id, d.sets[id.main])
            && d.sets[id.main].template == c.sets[id.main].template
            && d.sets[id.main].generation == c.sets[id.main].generation
            && (IsNewestGeneration(c.sets[id.main]) ==> IsNewestGeneration(d.sets[id.main]))
            && (Settled(c.sets[id.main]) ==> Settled(d.sets[id.main]))
    decreases |es|
  {
    if es != [] {
      EventKeepsRolling(id, c, es[0]);
      assert forall i | 0 <= i < |es[1..]| :: es[1..][i] == es[i + 1];
      EventsKeepRolling(id, Happen(c, es[0]), es[1..]);
    }
  }

  /** Generation first, revisions second, as the gate of the secondaries reads them: whatever
      happens in between, the pod runs the stored template and is ready. */
  lemma GenerationFirst(id: Identity, c: Cluster, es: seq<Event>)
    requires id.main in c.sets && Rolling(id, c.sets[id.main]) && Unforced(id.main, es)
    requires IsNewestGeneration(c.sets[id.main])
    ensures var d := HappenAll(c, es);
            id.main in d.sets && (IsUpdateFinished(d.sets[id.main]) <==> Settled(d.sets[id.main]))
  {
    EventsKeepRolling(id, c, es);
  }

  ghost predicate Misleads(id: Identity, c: Cluster, es: seq<Event>) {
    var d := HappenAll(c, es);
    Unforced(id.main, es) && id.main in d.sets && IsNewestGeneration(d.sets[id.main]) && !Settled(d.sets[id.main])
  }

  lemma ObservedMisleads(id: Identity, c: Cluster)
    requires id.main in c.sets && Rolling(id, c.sets[id.main]) && IsUpdateFinished(c.sets[id.main])
    requires c.sets[id.main].update != c.sets[id.main].template
    ensures Misleads(id, c, [Observe(id.main)])
  {
    var es := [Observe(id.main)];
    assert es[1..] == [];
    assert HappenAll(c, es) == Happen(c, es[0]);
  }

  /** Revisions first, generation second, as the handler of MainShuttingDown reads them: the two
      reads can be misled exactly if the controller had not yet looked at the stored template. */
  lemma RevisionFirst(id: Identity, c: Cluster)
    requires id.main in c.sets && Rolling(id, c.sets[id.main])
    requires IsUpdateFinished(c.sets[id.main])
    ensures (exists es :: Misleads(id, c, es)) <==> c.sets[id.main].update != c.sets[id.main].template
  {
    if c.sets[id.main].update != c.sets[id.main].template {
      ObservedMisleads(id, c);
    } else {
      forall es ensures !Misleads(id, c, es) {
        if Unforced(id.main, es) {
          EventsKeepRolling(id, c, es);
        }
      }
    }
  }

  /** Over a whole admissible run of a standalone upgrade: MainReady stands only while the main
      node's latest template is rolled out, is what the spec asks for, and its pod is ready. */
  lemma MainReadyIsTrue(p: Platform, id: Identity, s: System, acts: seq<Act>, i: nat)
    requires WriteSettles(p) && AtRest(p, id, s) && AdmissibleRun(p, id, s, acts) && i <= |acts|
    requires Trace(p, s, acts)[i].c.checkpoint == Some(MainReady)
    ensures var c := Trace(p, s, acts)[i].c;
            && id.main in c.sets && c.teamcity.Some?
            && Settled(c.sets[id.main]) && Conforms(p, c.teamcity.value, c.sets[id.main].template)
  {
    RunKeepsInv(p, id, s, acts, i);
  }

  // ---- The certificate of a fleet ----

  /** What the worker knows of the main node while it certifies its rollout. */
  predicate Certifies(f: MultiNode.Fleet, s: System)
    requires f.main in s.c.sets
  {
    var x := s.c.sets[f.main];
    match s.at
    case CertGeneration(_, finished) => finished ==> x.current == x.update
    case Persist(_, desired) => desired == MainReady ==> Settled(x)
    case PersistCreate(_, desired) => desired == MainReady ==> Settled(x)
    case PersistUpdate(_, desired) => desired == MainReady ==> Settled(x)
    case _ => true
  }

  predicate TornReads(f: MultiNode.Fleet, s: System) {
    && s.at.CertGeneration? && s.at.finished
    && f.main in s.c.sets && s.c.sets[f.main].update != s.c.sets[f.main].template
  }

  /** Between its two reads the controller does not look at a newer template. */
  ghost predicate WholeReads(p: Platform, f: MultiNode.Fleet, s: System, acts: seq<Act>)
    requires WellFormed(s.at)
  {
    forall i | 0 <= i < |acts| :: acts[i] == World(Observe(f.main)) ==> !TornReads(f, Trace(p, s, acts)[i])
  }

  lemma HandlerCertifies(p: Platform, f: MultiNode.Fleet, s: System, ok: bool)
    requires WellFormed(s.at) && InHandler(s.at) && f.main in s.c.sets && Certifies(f, s)
    requires s.at.inst.main.name == f.main && f.main in f.services
    requires MultiNode.Rolling(f.services[f.main], s.c.sets[f.main])
    ensures var t := CallHandler(p, s, ok);
            && f.main in t.c.sets && Certifies(f, t)
            && (t.c.checkpoint == Some(MainReady) != s.c.checkpoint ==> Settled(t.c.sets[f.main]))
  {
    assert |ReplicaName(s.at.inst)| > |f.main|;
  }

  lemma PersistCertifies(p: Platform, f: MultiNode.Fleet, s: System, ok: bool)
    requires WellFormed(s.at) && InPersist(s.at) && f.main in s.c.sets && Certifies(f, s)
    ensures var t := CallPersist(p, s, ok);
            && f.main in t.c.sets && Certifies(f, t)
            && (t.c.checkpoint == Some(MainReady) != s.c.checkpoint ==> Settled(t.c.sets[f.main]))
  {
  }

  /** Everywhere else nothing is known and nothing of the kind is persisted. */
  lemma OtherCallCertifies(p: Platform, f: MultiNode.Fleet, s: System, ok: bool)
    requires WellFormed(s.at) && !InHandler(s.at) && !InPersist(s.at) && f.main in Call(p, s, ok).c.sets
    ensures Certifies(f, Call(p, s, ok))
    ensures Call(p, s, ok).c.checkpoint in {s.c.checkpoint, None}
  {
  }

  lemma FleetCallCertifies(p: Platform, f: MultiNode.Fleet, s: System, ok: bool)
    requires MultiNode.Inv(p, f, s) && Certifies(f, s) && f.main in Call(p, s, ok).c.sets
    ensures var t := Call(p, s, ok);
            && Certifies(f, t)
            && (t.c.checkpoint == Some(MainReady) != s.c.checkpoint ==> Settled(t.c.sets[f.main]))
  {
    CallByGroup(p, s, ok);
    if InHandler(s.at) {
      HandlerCertifies(p, f, s, ok);
    } else if InPersist(s.at) {
      PersistCertifies(p, f, s, ok);
    } else {
      OtherCallCertifies(p, f, s, ok);
    }
  }

  lemma FleetStepCertifies(p: Platform, f: MultiNode.Fleet, s: System, a: Act)
    requires WriteSettles(p) && MultiNode.Inv(p, f, s) && Certifies(f, s)
    requires MultiNode.Admissible(p, f, s, a) && (a == World(Observe(f.main)) ==> !TornReads(f, s))
    ensures MultiNode.Inv(p, f, Step(p, s, a)) && Certifies(f, Step(p, s, a))
    ensures Step(p, s, a).c.checkpoint == Some(MainReady) != s.c.checkpoint ==> Settled(Step(p, s, a).c.sets[f.main])
  {
    MultiNode.StepKeepsInv(p, f, s, a);
    if a.Op? {
      FleetCallCertifies(p, f, s, a.ok);
    } else if a.World? && !a.event.Edit? {
      MultiNode.EventAdvances(p, f, s, a.event);
    }
  }

  lemma {:induction false} FleetCertifiesAlong(p: Platform, f: MultiNode.Fleet, s: System, acts: seq<Act>, i: nat)
    requires WriteSettles(p) && MultiNode.AtRest(p, f, s)
    requires MultiNode.AdmissibleRun(p, f, s, acts) && WholeReads(p, f, s, acts) && i <= |acts|
    ensures MultiNode.Inv(p, f, Trace(p, s, acts)[i]) && Certifies(f, Trace(p, s, acts)[i])
  {
    if i > 0 {
      FleetCertifiesAlong(p, f, s, acts, i - 1);
      FleetStepCertifies(p, f, Trace(p, s, acts)[i - 1], acts[i - 1]);
    }
  }

  /** With several nodes too, whatever calls fail: a run whose certificates are not torn persists
      MainReady only when the main node's latest template is rolled out and its pod ready. */
  lemma FleetMainReadyIsTrue(p: Platform, f: MultiNode.Fleet, s: System, acts: seq<Act>, i: nat)
    requires WriteSettles(p) && MultiNode.AtRest(p, f, s)
    requires MultiNode.AdmissibleRun(p, f, s, acts) && WholeReads(p, f, s, acts) && i < |acts|
    requires Trace(p, s, acts)[i + 1].c.checkpoint == Some(MainReady) != Trace(p, s, acts)[i].c.checkpoint
    ensures var c := Trace(p, s, acts)[i + 1].c; f.main in c.sets && Settled(c.sets[f.main])
  {
    FleetCertifiesAlong(p, f, s, acts, i);
    FleetCertifiesAlong(p, f, s, acts, i + 1);
    FleetStepCertifies(p, f, Trace(p, s, acts)[i], acts[i]);
  }
}
