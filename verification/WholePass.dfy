/** What whole passes come to, from the first call to the last, for instances of any shape. */
module WholePass {
  import opened PodTree
  import opened PodTemplate
  import opened Stages
  import opened Cluster
  import opened Protocol
  import opened Driver
  import opened Passes
  import opened Detection
  import Convergence

  /** Where the pass from `c` ends if every call succeeds and nothing else happens. */
  function End(p: Platform, c: Cluster): System {
    ScriptedPass(p, c, []).0
  }

  lemma FinishStep(p: Platform, s: System, script: Script)
    requires WellFormed(s.at) && !s.at.Rest?
    ensures Finish(p, s, script) == Finish(p, Tick(p, s, Now(script)), Later(script))
  {
  }

  lemma {:induction false} CallsFinish(p: Platform, s: System, n: nat)
    requires WellFormed(s.at) && forall k | 0 <= k < n :: !Calls(p, s, k).at.Rest?
    ensures Finish(p, s, []).0 == Finish(p, Calls(p, s, n), []).0
    decreases n
  {
    if n > 0 {
      var t := Call(p, s, true);
      assert Calls(p, s, 0) == s;
      FinishStep(p, s, []);
      assert Tick(p, s, Now([])) == t;
      forall k | 0 <= k < n - 1 ensures !Calls(p, t, k).at.Rest? {
        assert Calls(p, t, k) == Calls(p, s, k + 1);
      }
      CallsFinish(p, t, n - 1);
    }
  }

  lemma BecomingFinishes(p: Platform, s: System, t: System)
    requires Becomes(p, s, t) && !s.at.Rest?
    ensures Finish(p, s, []).0 == Finish(p, t, []).0
  {
    var n: nat :| BecomesIn(p, s, t, n);
    forall k | 0 <= k < n ensures !Calls(p, s, k).at.Rest? {
      assert Calls(p, s, 0) == s;
    }
    CallsFinish(p, s, n);
  }

  lemma EndFromOpening(p: Platform, inst: Instance, c: Cluster)
    requires c.teamcity == Some(inst) && !inst.deleting
    ensures End(p, c) == Finish(p, System(c, Opened(p, inst, c)), []).0
  {
    var s, t, u := System(c, Rest(Finished)), System(c, ReadOngoing(inst)), System(c, Opened(p, inst, c));
    PassOpens(p, inst, c, Finished);
    assert Tick(p, s, Now([])) == t;
    Convergence.AfterFirstCall(p, s, u);
    BecomingFinishes(p, t, u);
  }

  lemma EndBecoming(p: Platform, inst: Instance, c: Cluster, t: System)
    requires c.teamcity == Some(inst) && !inst.deleting
    requires Becomes(p, System(c, Opened(p, inst, c)), t)
    ensures End(p, c) == Finish(p, t, []).0
  {
    EndFromOpening(p, inst, c);
    BecomingFinishes(p, System(c, Opened(p, inst, c)), t);
  }

  // ---- What a builder pass leaves alone ----

  lemma {:induction false} EventsSpareCheckpoint(c: Cluster, es: seq<Event>)
    ensures HappenAll(c, es).checkpoint == c.checkpoint
    ensures HappenAll(c, es).support == c.support
    decreases |es|
  {
    if es != [] {
      EventsSpareCheckpoint(Happen(c, es[0]), es[1..]);
    }
  }

  predicate InBuilders(at: Point) {
    InMain(at) || InGate(at) || InNode(at)
  }

  lemma BuilderCallSpares(p: Platform, s: System, ok: bool)
    requires WellFormed(s.at) && InBuilders(s.at)
    ensures var t := Call(p, s, ok);
            && (t.at.Rest? || InBuilders(t.at))
            && t.c.checkpoint == s.c.checkpoint && t.c.teamcity == s.c.teamcity
  {
  }

  /** No builder makes, moves or drops the checkpoint, whatever happens to its calls. */
  lemma {:induction false} BuildersSpareCheckpoint(p: Platform, s: System, script: Script)
    requires WellFormed(s.at) && (s.at.Rest? || InBuilders(s.at))
    ensures Finish(p, s, script).0.c.checkpoint == s.c.checkpoint
    ensures script == [] ==> Finish(p, s, script).0.c.teamcity == s.c.teamcity
    decreases Phase(s.at), Count(s.at)
  {
    if !s.at.Rest? {
      var m := Moved(s, Now(script));
      EventsSpareCheckpoint(s.c, Now(script).before);
      CallDescends(p, m, Now(script).ok);
      BuilderCallSpares(p, m, Now(script).ok);
      BuildersSpareCheckpoint(p, Tick(p, s, Now(script)), Later(script));
    }
  }

  // ---- When an upgrade starts ----

  /** The node has a StatefulSet that the comparison of templates finds in order. */
  predicate LooksRight(p: Platform, node: Node, c: Cluster) {
    node.name in c.sets && !p.detect(node.desired, c.sets[node.name].template)
  }

  /** The spec gives the node another service name than it is stored with. */
  predicate Renamed(node: Node, c: Cluster) {
    node.name in c.sets && node.serviceName != "" && c.sets[node.name].serviceName != node.serviceName
  }

  lemma {:induction false} FirstRenamed(p: Platform, inst: Instance, c: Cluster, i: nat)
    requires forall node | node in AllNodes(inst) :: LooksRight(p, node, c)
    requires i < |AllNodes(inst)| && Renamed(AllNodes(inst)[i], c)
    ensures RestartNeeded(p, inst, c)
    decreases i
  {
    if k: nat :| k < i && Renamed(AllNodes(inst)[k], c) {
      FirstRenamed(p, inst, c, k);
    } else {
      forall k | 0 <= k < i ensures Unchanged(p, inst, c, k) {
        assert AllNodes(inst)[k] in AllNodes(inst);
      }
      assert AllNodes(inst)[i] in AllNodes(inst);
      assert Changed(p, inst, c, i);
    }
  }

  lemma RenamedMeansRestart(p: Platform, inst: Instance, c: Cluster)
    requires forall node | node in AllNodes(inst) :: LooksRight(p, node, c)
    ensures RestartNeeded(p, inst, c) <==> exists node | node in AllNodes(inst) :: Renamed(node, c)
  {
    if RestartNeeded(p, inst, c) {
      var i :| 0 <= i < |AllNodes(inst)| && Changed(p, inst, c, i);
      assert AllNodes(inst)[i] in AllNodes(inst) && Renamed(AllNodes(inst)[i], c);
    }
    if node :| node in AllNodes(inst) && Renamed(node, c) {
      var i :| 0 <= i < |AllNodes(inst)| && AllNodes(inst)[i] == node;
      FirstRenamed(p, inst, c, i);
    }
  }

  lemma UpgradeCheckpointed(p: Platform, inst: Instance, c: Cluster, stage: Stage)
    requires c.teamcity == Some(inst) && !inst.deleting && c.checkpoint.None?
    requires Opened(p, inst, c) == Persist(inst, stage) && stage in {ReplicaCreated, MainShuttingDown}
    ensures End(p, c).c.checkpoint == Some(stage)
  {
    var t := System(c.(checkpoint := Some(stage)), AfterPersist(inst, stage));
    AskBecomes(p, inst, c, stage);
    EndBecoming(p, inst, c, t);
    BuildersSpareCheckpoint(p, t, []);
  }

  /** Under the policy, with templates that all look right, a pass starts an upgrade exactly if the
      spec renames the service of some node: with a replica if the node is alone, and with the
      restart of the main node if it is not. */
  lemma NewServiceNameStartsUpgrade(p: Platform, inst: Instance, c: Cluster)
    requires c.teamcity == Some(inst) && !inst.deleting && inst.zeroDowntime && c.checkpoint.None?
    requires forall node | node == inst.main || node in inst.secondaries :: LooksRight(p, node, c)
    ensures End(p, c).c.checkpoint ==
            if exists node | node == inst.main || node in inst.secondaries :: Renamed(node, c)
            then Some(if inst.secondaries == [] then ReplicaCreated else MainShuttingDown)
            else None
  {
    assert forall node :: node in AllNodes(inst) <==> node == inst.main || node in inst.secondaries;
    RenamedMeansRestart(p, inst, c);
    if RestartNeeded(p, inst, c) {
      UpgradeCheckpointed(p, inst, c, if inst.secondaries == [] then ReplicaCreated else MainShuttingDown);
    } else {
      EndFromOpening(p, inst, c);
      BuildersSpareCheckpoint(p, System(c, Support(inst)), []);
    }
  }

  // ---- Deletion ----

  predicate NoEdits(script: Script) {
    forall i | 0 <= i < |script| :: forall j | 0 <= j < |script[i].before| :: !script[i].before[j].Edit?
  }

  lemma {:induction false} EventsSpareSpec(c: Cluster, es: seq<Event>)
    requires forall j | 0 <= j < |es| :: !es[j].Edit?
    ensures HappenAll(c, es).teamcity == c.teamcity
    decreases |es|
  {
    if es != [] {
      EventsSpareSpec(Happen(c, es[0]), es[1..]);
    }
  }

  /** What one turn without an edit does before its call. */
  lemma TurnSpares(c: Cluster, script: Script)
    requires NoEdits(script)
    ensures var d := HappenAll(c, Now(script).before);
            d == c.(sets := d.sets) && NoEdits(Later(script))
  {
    EventsSpareCheckpoint(c, Now(script).before);
    EventsSpareSpec(c, Now(script).before);
    EventsSpareUids(c, Now(script).before);
  }

  lemma {:induction false} EventsSpareUids(c: Cluster, es: seq<Event>)
    ensures HappenAll(c, es).nextUid == c.nextUid
    decreases |es|
  {
    if es != [] {
      EventsSpareUids(Happen(c, es[0]), es[1..]);
    }
  }

  /** How the pass ends that lets go of the object, if it does, and what becomes of its checkpoint. */
  predicate LetsGo(c: Cluster, e: System, released: bool, dropped: bool) {
    && e.c.teamcity == (if released then None else c.teamcity)
    && e.c.checkpoint == (if dropped then None else c.checkpoint)
    && e.at == Rest(if released then Finished else Failed)
  }

  lemma {:induction false} AfterLater(script: Script, k: nat)
    ensures After(Later(script), k) == After(script, k + 1)
  {
    if k > 0 {
      AfterLater(script, k - 1);
    } else {
      assert After(script, 0) == script && After(script, 1) == Later(After(script, 0));
    }
  }

  lemma ReleaseEnds(p: Platform, c: Cluster, inst: Instance, script: Script)
    requires NoEdits(script)
    ensures LetsGo(c, Finish(p, System(c, FinalRelease(inst)), script).0, TurnAt(script, 0).ok, false)
  {
    FinishStep(p, System(c, FinalRelease(inst)), script);
    TurnSpares(c, script);
  }

  lemma DropEnds(p: Platform, c: Cluster, inst: Instance, script: Script)
    requires NoEdits(script) && c.checkpoint.Some?
    ensures LetsGo(c, Finish(p, System(c, FinalDelete(inst, true)), script).0,
                   TurnAt(script, 0).ok && TurnAt(script, 1).ok, TurnAt(script, 0).ok)
  {
    var d := HappenAll(c, Now(script).before);
    FinishStep(p, System(c, FinalDelete(inst, true)), script);
    TurnSpares(c, script);
    ReleaseEnds(p, d.(checkpoint := None), inst, Later(script));
    AfterLater(script, 0);
  }

  lemma ReadEnds(p: Platform, c: Cluster, inst: Instance, script: Script)
    requires NoEdits(script) && c.checkpoint.Some?
    ensures LetsGo(c, Finish(p, System(c, FinalRead(inst)), script).0,
                   TurnAt(script, 0).ok && TurnAt(script, 1).ok && TurnAt(script, 2).ok,
                   TurnAt(script, 0).ok && TurnAt(script, 1).ok)
  {
    var d := HappenAll(c, Now(script).before);
    FinishStep(p, System(c, FinalRead(inst)), script);
    TurnSpares(c, script);
    DropEnds(p, d, inst, Later(script));
    AfterLater(script, 0);
    AfterLater(script, 1);
  }

  lemma FinalizerEnds(p: Platform, c: Cluster, inst: Instance, script: Script)
    requires NoEdits(script)
    ensures var known := TurnAt(script, 0).ok && c.checkpoint.Some?;
            LetsGo(c, Finish(p, System(c, FinalOngoing(inst)), script).0,
                   TurnAt(script, 1).ok && (known ==> TurnAt(script, 2).ok && TurnAt(script, 3).ok),
                   known && TurnAt(script, 1).ok && TurnAt(script, 2).ok)
  {
    var d := HappenAll(c, Now(script).before);
    FinishStep(p, System(c, FinalOngoing(inst)), script);
    TurnSpares(c, script);
    AfterLater(script, 0);
    if TurnAt(script, 0).ok && c.checkpoint.Some? {
      ReadEnds(p, d, inst, Later(script));
      AfterLater(script, 1);
      AfterLater(script, 2);
    } else {
      ReleaseEnds(p, d, inst, Later(script));
    }
  }

  /** A pass over an object that is being deleted, with any calls failing: the checkpoint is dropped
      if its existence could be read, and then the object is released. It is kept if a checkpoint
      that is known of cannot be dropped, and it goes without one only if that first read fails. */
  lemma DeletedInstance(p: Platform, c: Cluster, script: Script)
    requires c.teamcity.Some? && c.teamcity.value.deleting && NoEdits(script)
    ensures var known := TurnAt(script, 0).ok && TurnAt(script, 1).ok && c.checkpoint.Some?;
            LetsGo(c, ScriptedPass(p, c, script).0,
                   && TurnAt(script, 0).ok && TurnAt(script, 2).ok
                   && (known ==> TurnAt(script, 3).ok && TurnAt(script, 4).ok),
                   known && TurnAt(script, 2).ok && TurnAt(script, 3).ok)
  {
    var inst, d := c.teamcity.value, HappenAll(c, Now(script).before);
    TurnSpares(c, script);
    AfterLater(script, 0);
    AfterLater(script, 1);
    AfterLater(script, 2);
    AfterLater(script, 3);
    if TurnAt(script, 0).ok {
      FinalizerEnds(p, d, inst, Later(script));
    }
  }

  /** If nothing fails, the object and its checkpoint go in one pass, and nothing else does. */
  lemma DeletionEnds(p: Platform, c: Cluster)
    requires c.teamcity.Some? && c.teamcity.value.deleting
    ensures End(p, c) == System(c.(teamcity := None, checkpoint := None), Rest(Finished))
  {
    var inst := c.teamcity.value;
    var s, t := System(c, Rest(Finished)), System(c, FinalOngoing(inst));
    var d := c.(checkpoint := None);
    assert Tick(p, s, Now([])) == t;
    FinishStep(p, t, []);
    if c.checkpoint.Some? {
      FinishStep(p, System(c, FinalRead(inst)), []);
      FinishStep(p, System(c, FinalDelete(inst, true)), []);
    } else {
      assert d == c;
    }
    FinishStep(p, System(d, FinalRelease(inst)), []);
  }

  /** Edits may fall into the pass as well: whenever it releases the object, no checkpoint is left,
      or the first read of it failed. */
  lemma ReleasedMeansForgotten(p: Platform, c: Cluster, script: Script)
    requires c.teamcity.Some? && ScriptedPass(p, c, script).0.c.teamcity.None?
    ensures ScriptedPass(p, c, script).0.c.checkpoint.None? || !TurnAt(script, 1).ok
  {
    var s := System(c, Rest(Finished));
    var t := Tick(p, s, Now(script));
    EventsKeepSpec(c, Now(script).before);
    if !t.at.Rest? && !t.at.FinalOngoing? {
      OnlyFinalizerReleases(p, t, Later(script));
    } else if t.at.FinalOngoing? {
      FinalizerForgets(p, t, Later(script));
      AfterLater(script, 0);
    }
  }

  lemma {:induction false} EventsKeepSpec(c: Cluster, es: seq<Event>)
    ensures HappenAll(c, es).teamcity.None? <==> c.teamcity.None?
    decreases |es|
  {
    if es != [] {
      EventsKeepSpec(Happen(c, es[0]), es[1..]);
    }
  }

  lemma CallKeepsSpec(p: Platform, s: System, ok: bool)
    requires WellFormed(s.at) && !s.at.Rest? && !InFinalizer(s.at)
    ensures var t := Call(p, s, ok); t.c.teamcity == s.c.teamcity && !InFinalizer(t.at)
  {
  }

  lemma {:induction false} OnlyFinalizerReleases(p: Platform, s: System, script: Script)
    requires WellFormed(s.at) && !InFinalizer(s.at) && s.c.teamcity.Some?
    ensures Finish(p, s, script).0.c.teamcity.Some?
    decreases Phase(s.at), Count(s.at)
  {
    if !s.at.Rest? {
      var m := Moved(s, Now(script));
      EventsKeepSpec(s.c, Now(script).before);
      CallDescends(p, m, Now(script).ok);
      CallKeepsSpec(p, m, Now(script).ok);
      OnlyFinalizerReleases(p, Tick(p, s, Now(script)), Later(script));
    }
  }

  /** Past the first read: either it failed, or there is no checkpoint, or it has to be dropped. */
  predicate Forgets(s: System) {
    match s.at
    case FinalRead(_) => s.c.checkpoint.Some? && s.c.teamcity.Some?
    case FinalDelete(_, _) => s.c.teamcity.Some?
    case FinalRelease(_) => s.c.checkpoint.None?
    case Rest(_) => s.c.teamcity.None? ==> s.c.checkpoint.None?
    case _ => false
  }

  lemma {:induction false} ForgettingEnds(p: Platform, s: System, script: Script)
    requires WellFormed(s.at) && Forgets(s)
    ensures var e := Finish(p, s, script).0; e.c.teamcity.None? ==> e.c.checkpoint.None?
    decreases Phase(s.at), Count(s.at)
  {
    if !s.at.Rest? {
      var m := Moved(s, Now(script));
      EventsKeepSpec(s.c, Now(script).before);
      EventsSpareCheckpoint(s.c, Now(script).before);
      CallDescends(p, m, Now(script).ok);
      ForgettingEnds(p, Tick(p, s, Now(script)), Later(script));
    }
  }

  lemma FinalizerForgets(p: Platform, s: System, script: Script)
    requires s.at.FinalOngoing? && s.c.teamcity.Some?
    ensures var e := Finish(p, s, script).0;
            e.c.teamcity.None? && TurnAt(script, 0).ok ==> e.c.checkpoint.None?
  {
    if TurnAt(script, 0).ok {
      FinishStep(p, s, script);
      EventsKeepSpec(s.c, Now(script).before);
      ForgettingEnds(p, Tick(p, s, Now(script)), Later(script));
    }
  }

  // ---- Every stage of an upgrade ----

  predicate Undisturbed(c: Cluster, inst: Instance, stage: Stage) {
    c.teamcity == Some(inst) && !inst.deleting && c.checkpoint == Some(stage)
  }

  /** The request for the next stage is granted and ends the pass. */
  lemma RequestEnds(p: Platform, inst: Instance, c: Cluster, d: Cluster, stage: Stage)
    requires c.teamcity == Some(inst) && !inst.deleting && stage != MainShuttingDown
    requires Becomes(p, System(c, Opened(p, inst, c)), System(d, Persist(inst, stage)))
    requires d.checkpoint.Some? && CanChange(d.checkpoint.value, stage)
    ensures End(p, c) == System(d.(checkpoint := Some(stage)), Rest(Requeued))
  {
    AskBecomes(p, inst, d, stage);
    EndBecoming(p, inst, c, System(d, Persist(inst, stage)));
    BecomingFinishes(p, System(d, Persist(inst, stage)), System(d.(checkpoint := Some(stage)), Rest(Requeued)));
  }

  /** From one point to the next by a single call. */
  lemma OneCallBecomes(p: Platform, s: System, t: System)
    requires WellFormed(s.at) && Call(p, s, true) == t
    ensures Becomes(p, s, t)
  {
    BecomesAtOnce(p, t);
    BecomesNext(p, s, t);
  }

  lemma UpdateInitiatedEnds(p: Platform, inst: Instance, c: Cluster)
    requires Undisturbed(c, inst, UpdateInitiated)
    ensures End(p, c) == System(c.(checkpoint := Some(ReplicaCreated)), Rest(Requeued))
  {
    BecomesAtOnce(p, System(c, Persist(inst, ReplicaCreated)));
    RequestEnds(p, inst, c, c, ReplicaCreated);
  }

  /** The StatefulSet `n` of `d` is the replica for `inst` next to the main node `x`: a new one, or the
      old one with another template. */
  predicate IsReplica(p: Platform, inst: Instance, x: StatefulSet, c: Cluster, d: Cluster, n: string) {
    && n in d.sets && d.sets[n].template == p.replica(inst, x.template)
    && var r := d.sets[n];
    if n in c.sets then r == c.sets[n].(template := r.template, generation := r.generation)
    else r.role == ReplicaRole && r.serviceName == "" && r.uid == c.nextUid && !r.ready && !r.terminating
  }

  /** The replica is made or brought up to date; without a main node there is nothing to copy. */
  lemma ReplicaCreatedEnds(p: Platform, inst: Instance, c: Cluster)
    requires Undisturbed(c, inst, ReplicaCreated)
    ensures var e, n := End(p, c), inst.main.name + "-update-replica";
            if inst.main.name in c.sets then
              && e.at == Rest(Requeued) && e.c.checkpoint == Some(ReplicaStarting)
              && IsReplica(p, inst, c.sets[inst.main.name], c, e.c, n)
              && e.c == c.(checkpoint := e.c.checkpoint, nextUid := e.c.nextUid, sets := c.sets[n := e.c.sets[n]])
            else e == System(c, Rest(Failed))
  {
    var s := System(c, ReplicaReadMain(inst));
    if inst.main.name in c.sets {
      var x := c.sets[inst.main.name];
      var t, d := System(c, ReplicaMake(inst, x.template)), ApplyReplica(p, c, inst, x.template);
      OneCallBecomes(p, t, System(d, Persist(inst, ReplicaStarting)));
      BecomesNext(p, s, System(d, Persist(inst, ReplicaStarting)));
      RequestEnds(p, inst, c, d, ReplicaStarting);
    } else {
      OneCallBecomes(p, s, System(c, Rest(Failed)));
      EndBecoming(p, inst, c, System(c, Rest(Failed)));
    }
  }

  /** The pass waits for the pod of the replica, and fails without a replica. */
  lemma ReplicaStartingEnds(p: Platform, inst: Instance, c: Cluster)
    requires Undisturbed(c, inst, ReplicaStarting)
    ensures var n := inst.main.name + "-update-replica";
            End(p, c) == if n !in c.sets then System(c, Rest(Failed))
                         else if c.sets[n].ready then System(c.(checkpoint := Some(ReplicaReady)), Rest(Requeued))
                         else System(c, Rest(Requeued))
  {
    var s, n := System(c, ReplicaPoll(inst)), inst.main.name + "-update-replica";
    if n in c.sets && c.sets[n].ready {
      OneCallBecomes(p, s, System(c, Persist(inst, ReplicaReady)));
      RequestEnds(p, inst, c, c, ReplicaReady);
    } else {
      var t := System(c, Rest(if n in c.sets then Requeued else Failed));
      OneCallBecomes(p, s, t);
      EndBecoming(p, inst, c, t);
    }
  }

  /** The pass waits until the status of the main node speaks of its latest generation, of one
      revision, and of a ready pod. */
  lemma MainShuttingDownEnds(p: Platform, inst: Instance, c: Cluster)
    requires Undisturbed(c, inst, MainShuttingDown)
    ensures End(p, c) ==
            if inst.main.name !in c.sets then System(c, Rest(Failed))
            else
              var x := c.sets[inst.main.name];
              if x.observed == x.generation && x.current == x.update && x.ready
              then System(c.(checkpoint := Some(MainReady)), Rest(Requeued))
              else System(c, Rest(Requeued))
  {
    var s := System(c, CertRevision(inst));
    if inst.main.name !in c.sets {
      OneCallBecomes(p, s, System(c, Rest(Failed)));
      EndBecoming(p, inst, c, System(c, Rest(Failed)));
    } else {
      var x := c.sets[inst.main.name];
      var t := System(c, CertGeneration(inst, IsUpdateFinished(x)));
      if x.observed == x.generation && x.current == x.update && x.ready {
        OneCallBecomes(p, t, System(c, Persist(inst, MainReady)));
        BecomesNext(p, s, System(c, Persist(inst, MainReady)));
        RequestEnds(p, inst, c, c, MainReady);
      } else {
        OneCallBecomes(p, t, System(c, Rest(Requeued)));
        BecomesNext(p, s, System(c, Rest(Requeued)));
        EndBecoming(p, inst, c, System(c, Rest(Requeued)));
      }
    }
  }

  /** The replica is sent on its way out, if there is one. */
  lemma MainReadyEnds(p: Platform, inst: Instance, c: Cluster)
    requires Undisturbed(c, inst, MainReady)
    ensures var e, n := End(p, c), inst.main.name + "-update-replica";
            && e.at == Rest(Requeued) && e.c.checkpoint == Some(UpdateFinished)
            && (n in c.sets ==>
                  && n in e.c.sets && e.c.sets[n].terminating
                  && e.c == c.(checkpoint := e.c.checkpoint, sets := c.sets[n := e.c.sets[n]]))
            && (n !in c.sets ==> e.c == c.(checkpoint := e.c.checkpoint))
  {
    var s, n := System(c, ReplicaLookup(inst)), inst.main.name + "-update-replica";
    var d := Remove(c, n);
    if n in c.sets {
      OneCallBecomes(p, System(c, ReplicaDelete(inst)), System(d, Persist(inst, UpdateFinished)));
      BecomesNext(p, s, System(d, Persist(inst, UpdateFinished)));
    } else {
      OneCallBecomes(p, s, System(d, Persist(inst, UpdateFinished)));
    }
    RequestEnds(p, inst, c, d, UpdateFinished);
  }

  /** The main node is there and does not have to be recreated. */
  predicate MainFits(inst: Instance, c: Cluster) {
    && inst.main.name in c.sets
    && c.sets[inst.main.name].serviceName == inst.main.serviceName
    && c.sets[inst.main.name].role == MainRole
  }

  /** The cluster with the supporting objects and the main node brought to the spec. */
  function MainWritten(p: Platform, inst: Instance, c: Cluster): Cluster
    requires inst.main.name in c.sets
  {
    var x := c.sets[inst.main.name];
    c.(support := inst.support, sets := c.sets[inst.main.name := Store(x, p.write(inst.main.desired, x.template))])
  }

  lemma MainWriteCalls(p: Platform, inst: Instance, c: Cluster)
    requires MainFits(inst, c)
    ensures Becomes(p, System(c, Support(inst)), System(MainWritten(p, inst, c), Obsolete(inst)))
  {
    var d := c.(support := inst.support);
    var s, t, u := System(c, Support(inst)), System(d, MainHook(inst)), System(d, MainWrite(inst));
    var goal := System(MainWritten(p, inst, c), Obsolete(inst));
    CallByGroup(p, u, true);
    OneCallBecomes(p, u, goal);
    CallByGroup(p, t, true);
    BecomesNext(p, t, goal);
    CallByGroup(p, s, true);
    BecomesNext(p, s, goal);
  }

  /** From the gate on: with a checkpoint the pass ends there, or at its closing look. */
  lemma StopsAtGate(p: Platform, inst: Instance, c: Cluster)
    requires c.checkpoint.Some?
    ensures Finish(p, System(c, AfterPrune(inst)), []).0 == System(c, Rest(Requeued))
  {
    var s := System(c, AfterPrune(inst));
    FinishStep(p, s, []);
    if |inst.secondaries| > 0 {
      var t := Tick(p, s, Now([]));
      FinishStep(p, t, []);
      FinishStep(p, Tick(p, t, Now([])), []);
    }
  }

  lemma PrunesAndStops(p: Platform, inst: Instance, c: Cluster)
    requires c.checkpoint.Some?
    ensures Finish(p, System(c, Obsolete(inst)), []).0
         == System(Convergence.Pruned(c, ObsoleteNames(c, inst)), Rest(Requeued))
  {
    var names := ObsoleteNames(c, inst);
    var s, d := System(c, Obsolete(inst)), Convergence.Pruned(c, names);
    FinishStep(p, s, []);
    StopsAtGate(p, inst, d);
    if names == {} {
      assert d.sets == c.sets;
    } else {
      Convergence.PruneCalls(p, inst, c, names);
      BecomingFinishes(p, System(c, Prune(inst, names)), System(d, AfterPrune(inst)));
    }
  }

  /** From `c` to `d` obsolete secondaries are sent on their way out, and nothing else happens. */
  predicate OnlyPruned(inst: Instance, c: Cluster, d: Cluster) {
    && d == c.(sets := d.sets) && d.sets.Keys == c.sets.Keys
    && forall n | n in c.sets ::
         if c.sets[n].role == SecondaryRole && forall j | 0 <= j < |inst.secondaries| :: inst.secondaries[j].name != n
         then d.sets[n].terminating
         else d.sets[n] == c.sets[n]
  }

  lemma PrunedOnly(inst: Instance, c: Cluster)
    ensures OnlyPruned(inst, c, Convergence.Pruned(c, ObsoleteNames(c, inst)))
  {
  }

  /** MainShuttingDown is persisted before the main node is written, in one pass; the secondaries of
      the spec have to wait. */
  lemma ReplicaReadyEnds(p: Platform, inst: Instance, c: Cluster)
    requires Undisturbed(c, inst, ReplicaReady) && MainFits(inst, c)
    ensures End(p, c).at == Rest(Requeued)
    ensures OnlyPruned(inst, MainWritten(p, inst, c).(checkpoint := Some(MainShuttingDown)), End(p, c).c)
  {
    var d := c.(checkpoint := Some(MainShuttingDown));
    var e := MainWritten(p, inst, d);
    AskBecomes(p, inst, c, MainShuttingDown);
    MainWriteCalls(p, inst, d);
    BecomesThen(p, System(c, Opened(p, inst, c)), System(d, Support(inst)), System(e, Obsolete(inst)));
    EndBecoming(p, inst, c, System(e, Obsolete(inst)));
    PrunesAndStops(p, inst, e);
    PrunedOnly(inst, e);
  }

  lemma DropCalls(p: Platform, inst: Instance, c: Cluster)
    requires c.checkpoint.Some?
    ensures Becomes(p, System(c, DropRead(inst)), System(c.(checkpoint := None), Support(inst)))
  {
    var s, t := System(c, DropRead(inst)), System(c, DropDelete(inst, true));
    CallByGroup(p, t, true);
    OneCallBecomes(p, t, System(c.(checkpoint := None), Support(inst)));
    CallByGroup(p, s, true);
    BecomesNext(p, s, System(c.(checkpoint := None), Support(inst)));
  }

  /** The checkpoint is dropped, and the same pass goes on to the secondaries if the main node is done. */
  lemma UpdateFinishedEnds(p: Platform, inst: Instance, c: Cluster)
    requires WriteSettles(p) && Undisturbed(c, inst, UpdateFinished)
    requires Convergence.Ready(p, inst, c.(checkpoint := None))
    ensures End(p, c) == System(Convergence.Done(p, inst, c.(checkpoint := None)), Rest(Finished))
  {
    var d := c.(checkpoint := None);
    var t := System(d, Support(inst));
    DropCalls(p, inst, c);
    EndBecoming(p, inst, c, t);
    Convergence.BuilderEnds(p, inst, d);
    BecomingFinishes(p, t, System(Convergence.Done(p, inst, d), Rest(Finished)));
  }

  // ---- Recreation of the main node ----

  /** No upgrade is under way, and the policy starts none. */
  predicate WithoutUpgrade(c: Cluster, inst: Instance) {
    c.teamcity == Some(inst) && !inst.deleting && !inst.zeroDowntime && c.checkpoint.None?
  }

  /** Without the annotation a changed service name ends the pass before any node is touched. */
  lemma BlockedEnds(p: Platform, inst: Instance, c: Cluster)
    requires WithoutUpgrade(c, inst) && !inst.allowRecreate
    requires inst.main.name in c.sets && c.sets[inst.main.name].serviceName != inst.main.serviceName
    ensures End(p, c) == System(c.(support := inst.support), Rest(Blocked))
  {
    var d := c.(support := inst.support);
    var goal := System(d, Rest(Blocked));
    CallByGroup(p, System(d, MainHook(inst)), true);
    OneCallBecomes(p, System(d, MainHook(inst)), goal);
    CallByGroup(p, System(c, Support(inst)), true);
    BecomesNext(p, System(c, Support(inst)), goal);
    EndBecoming(p, inst, c, goal);
  }

  /** The main StatefulSet as the rest of a pass finds it. */
  predicate SameMain(inst: Instance, c: Cluster, d: Cluster) {
    inst.main.name in c.sets && inst.main.name in d.sets && d.sets[inst.main.name] == c.sets[inst.main.name]
  }

  predicate PastMain(inst: Instance, s: System) {
    && WellFormed(s.at) && (s.at.Rest? || InGate(s.at) || InNode(s.at))
    && (!s.at.Rest? ==> s.at.inst == inst)
    && inst.main.name in s.c.sets && s.c.sets[inst.main.name].role == MainRole
    && (s.at.Prune? ==> inst.main.name !in s.at.rest)
  }

  lemma GateSparesMain(p: Platform, inst: Instance, s: System)
    requires PastMain(inst, s) && InGate(s.at)
    ensures PastMain(inst, Call(p, s, true)) && SameMain(inst, s.c, Call(p, s, true).c)
  {
    CallByGroup(p, s, true);
  }

  lemma NodesSpareMain(p: Platform, inst: Instance, s: System)
    requires PastMain(inst, s) && DistinctNames(inst) && InNode(s.at)
    ensures PastMain(inst, Call(p, s, true)) && SameMain(inst, s.c, Call(p, s, true).c)
  {
    CallByGroup(p, s, true);
  }

  lemma {:induction false} RestSparesMain(p: Platform, inst: Instance, s: System)
    requires PastMain(inst, s) && DistinctNames(inst)
    ensures SameMain(inst, s.c, Finish(p, s, []).0.c)
    decreases Phase(s.at), Count(s.at)
  {
    if !s.at.Rest? {
      CallDescends(p, s, true);
      assert Tick(p, s, Now([])) == Call(p, s, true);
      if InGate(s.at) {
        GateSparesMain(p, inst, s);
      } else {
        NodesSpareMain(p, inst, s);
      }
      RestSparesMain(p, inst, Call(p, s, true));
    }
  }

  lemma RemovalCalls(p: Platform, inst: Instance, c: Cluster)
    requires inst.allowRecreate && inst.main.name in c.sets
    requires c.sets[inst.main.name].serviceName != inst.main.serviceName
    ensures Becomes(p, System(c, MainHook(inst)), System(Remove(c, inst.main.name), Obsolete(inst)))
  {
    var d := Remove(c, inst.main.name);
    var s, t, u := System(c, MainHook(inst)), System(c, MainRemove(inst)), System(d, MainRecheck(inst));
    var goal := System(d, Obsolete(inst));
    CallByGroup(p, u, true);
    OneCallBecomes(p, u, goal);
    CallByGroup(p, t, true);
    BecomesNext(p, t, goal);
    CallByGroup(p, s, true);
    BecomesNext(p, s, goal);
  }

  /** With the annotation the StatefulSet of the main node is sent on its way out. */
  lemma RemovalEnds(p: Platform, inst: Instance, c: Cluster)
    requires WithoutUpgrade(c, inst) && inst.allowRecreate && DistinctNames(inst)
    requires inst.main.name in c.sets && c.sets[inst.main.name].role == MainRole
    requires c.sets[inst.main.name].serviceName != inst.main.serviceName
    ensures var e := End(p, c).c;
            && inst.main.name in e.sets && e.sets[inst.main.name].terminating
            && e.teamcity == c.teamcity && e.checkpoint.None?
  {
    var d := c.(support := inst.support);
    var s, t := System(c, Support(inst)), System(Remove(d, inst.main.name), Obsolete(inst));
    RemovalCalls(p, inst, d);
    CallByGroup(p, s, true);
    BecomesNext(p, s, t);
    EndBecoming(p, inst, c, t);
    RestSparesMain(p, inst, t);
    BuildersSpareCheckpoint(p, t, []);
  }

  /** A main node that is not there is made as the spec says, under a uid that no other one had. */
  lemma CreationEnds(p: Platform, inst: Instance, c: Cluster)
    requires WithoutUpgrade(c, inst) && DistinctNames(inst) && inst.main.name !in c.sets
    ensures var e, n := End(p, c).c, inst.main.name;
            && n in e.sets && e.sets[n].role == MainRole && e.sets[n].uid == c.nextUid && !e.sets[n].terminating
            && e.sets[n].serviceName == inst.main.serviceName
            && e.sets[n].template == p.write(inst.main.desired, p.blank)
  {
    var d := c.(support := inst.support);
    var e := Apply(p, d, MainRole, inst.main).value;
    var s, t, u := System(c, Support(inst)), System(d, MainHook(inst)), System(d, MainWrite(inst));
    var goal := System(e, Obsolete(inst));
    CallByGroup(p, u, true);
    OneCallBecomes(p, u, goal);
    CallByGroup(p, t, true);
    BecomesNext(p, t, goal);
    CallByGroup(p, s, true);
    BecomesNext(p, s, goal);
    EndBecoming(p, inst, c, goal);
    RestSparesMain(p, inst, goal);
  }

  /** So a changed service name is there after two passes and the end of the old StatefulSet. */
  lemma RecreateCompletes(p: Platform, inst: Instance, c: Cluster)
    requires WithoutUpgrade(c, inst) && inst.allowRecreate && DistinctNames(inst)
    requires inst.main.name in c.sets && c.sets[inst.main.name].role == MainRole
    requires c.sets[inst.main.name].serviceName != inst.main.serviceName
    ensures var e := End(p, Happen(End(p, c).c, Vanish(inst.main.name))).c;
            && inst.main.name in e.sets && !e.sets[inst.main.name].terminating
            && e.sets[inst.main.name].serviceName == inst.main.serviceName
            && e.sets[inst.main.name].template == p.write(inst.main.desired, p.blank)
  {
    RemovalEnds(p, inst, c);
    CreationEnds(p, inst, Happen(End(p, c).c, Vanish(inst.main.name)));
  }

  // ---- Recreation of a secondary ----

  lemma RecheckEnds(p: Platform, inst: Instance, c: Cluster, j: nat)
    requires j < |inst.secondaries| && inst.secondaries[j].name in c.sets
    ensures Finish(p, System(c, NodeRecheck(inst, j)), []).0
         == System(c, Rest(if c.checkpoint.Some? then Requeued else Finished))
  {
    var s, t := System(c, NodeRecheck(inst, j)), System(c, LastCheck(inst));
    OneCallBecomes(p, s, t);
    BecomingFinishes(p, s, t);
    FinishStep(p, t, []);
  }

  lemma NodeRemovalEnds(p: Platform, inst: Instance, c: Cluster, j: nat)
    requires j < |inst.secondaries| && inst.secondaries[j].name in c.sets
    ensures Finish(p, System(c, NodeRemove(inst, j)), []).0
         == System(Remove(c, inst.secondaries[j].name), Rest(if c.checkpoint.Some? then Requeued else Finished))
  {
    var s, t := System(c, NodeRemove(inst, j)), System(Remove(c, inst.secondaries[j].name), NodeRecheck(inst, j));
    OneCallBecomes(p, s, t);
    BecomingFinishes(p, s, t);
    RecheckEnds(p, inst, t.c, j);
  }

  lemma HookCall(p: Platform, inst: Instance, c: Cluster, j: nat)
    requires j < |inst.secondaries| && DistinctNames(inst)
    requires var node := inst.secondaries[j];
             node.name in c.sets && c.sets[node.name].serviceName != node.serviceName
    ensures Call(p, System(c, NodeHook(inst, j)), true)
         == System(c, if inst.allowRecreate then NodeRemove(inst, j) else Rest(Blocked))
  {
    FoundByName(inst.secondaries, j);
  }

  /** A secondary whose service name has to change is sent on its way out, which ends the walk over the
      secondaries, or blocks the pass without the annotation. */
  lemma RenamedSecondaryEnds(p: Platform, inst: Instance, c: Cluster, j: nat)
    requires j < |inst.secondaries| && DistinctNames(inst)
    requires var node := inst.secondaries[j];
             node.name in c.sets && c.sets[node.name].serviceName != node.serviceName
    ensures var name, e := inst.secondaries[j].name, Finish(p, System(c, NodeHook(inst, j)), []).0;
            if inst.allowRecreate then
              && e.at == Rest(if c.checkpoint.Some? then Requeued else Finished)
              && name in e.c.sets && e.c.sets[name].terminating
              && e.c == c.(sets := c.sets[name := e.c.sets[name]])
            else e == System(c, Rest(Blocked))
  {
    var s, t := System(c, NodeHook(inst, j)), Call(p, System(c, NodeHook(inst, j)), true);
    HookCall(p, inst, c, j);
    OneCallBecomes(p, s, t);
    BecomingFinishes(p, s, t);
    if inst.allowRecreate {
      NodeRemovalEnds(p, inst, c, j);
    }
  }
}
