/** When one upgrade is followed by another although the spec stays. */
module Restarts {
  import opened PodTree
  import opened PodTemplate
  import opened Stages
  import opened Cluster
  import opened Protocol
  import opened StageProtocol
  import opened Rollouts
  import opened Course
  import opened Passes
  import opened Detection

  /** The certificate, from its first read to its persistence, speaks of the stored template, and
      the main node has been written before it. */
  predicate Straight(p: Platform, inst: Instance, s: System)
    requires NodesFit(p, inst, s.c)
  {
    var k, x := s.c.checkpoint, s.c.sets[inst.main.name];
    && (s.at.CertGeneration? && s.at.finished ==> x.ready && x.current == x.update)
    && ((s.at.Persist? || s.at.PersistUpdate?) && s.at.desired == MainReady ==> Work(x) == 0)
    && (k == Some(MainShuttingDown) && !InMain(s.at) ==> UpToDate(p, inst.main, s.c))
    && (k in {Some(MainReady), Some(UpdateFinished)} ==> UpToDate(p, inst.main, s.c) && Work(x) == 0)
  }

  /** The checkpoint has been dropped, and this pass brings the rest to the spec. */
  predicate Closing(p: Platform, inst: Instance, s: System)
    requires NodesFit(p, inst, s.c)
  {
    && s.c.checkpoint.None?
    && (|| AllUpToDate(p, inst, s.c)
        || (UpToDate(p, inst.main, s.c) && Work(s.c.sets[inst.main.name]) == 0 && Building(s.at)))
  }

  /** The controller does not look at the latest template between the two reads. */
  predicate TearsAt(inst: Instance, s: System)
    requires inst.main.name in s.c.sets
  {
    && s.at.CertGeneration? && s.at.finished
    && s.c.sets[inst.main.name].update != s.c.sets[inst.main.name].template
  }

  predicate Untorn(inst: Instance, s: System, a: Act) {
    Fair(a) && (inst.main.name in s.c.sets && TearsAt(inst, s) ==> a != World(Observe(inst.main.name)))
  }

  ghost predicate UntornRun(p: Platform, inst: Instance, s: System, acts: seq<Act>)
    requires WellFormed(s.at)
  {
    forall i | 0 <= i < |acts| :: Untorn(inst, Trace(p, s, acts)[i], acts[i])
  }

  // ---- An upgrade that certifies rightly is the only one ----

  lemma EventStaysStraight(p: Platform, inst: Instance, s: System, e: Event)
    requires OnCourse(p, inst, s) && Straight(p, inst, s) && Untorn(inst, s, World(e))
    ensures NodesFit(p, inst, Happen(s.c, e))
    ensures Straight(p, inst, System(Happen(s.c, e), s.at))
  {
    EventMoves(p, inst, s.c, e);
    MovingFits(p, inst, s.c, Happen(s.c, e));
    EventsHelp(s.c, inst.main.name, e);
    if s.at.CertGeneration? && s.at.finished {
      EventKeepsReading(inst, s, e);
    }
  }

  lemma EventKeepsReading(inst: Instance, s: System, e: Event)
    requires inst.main.name in s.c.sets && Sane(s.c.sets[inst.main.name]) && Untorn(inst, s, World(e))
    requires s.at.CertGeneration? && s.at.finished
    requires s.c.sets[inst.main.name].ready && s.c.sets[inst.main.name].current == s.c.sets[inst.main.name].update
    ensures var d := Happen(s.c, e);
            && inst.main.name in d.sets
            && d.sets[inst.main.name].ready && d.sets[inst.main.name].current == d.sets[inst.main.name].update
  {
  }

  lemma MainWriteStraight(p: Platform, inst: Instance, s: System)
    requires WriteSettles(p)
    requires OnCourse(p, inst, s) && InMain(s.at) && Straight(p, inst, s)
    ensures var t := CallMain(p, s, true); NodesFit(p, inst, t.c) && Straight(p, inst, t)
  {
    var t := CallMain(p, s, true);
    if s.at.MainWrite? {
      MainWriteFits(p, inst, s.c);
    } else {
      SameNodesFit(p, inst, s.c, t.c);
    }
  }

  lemma HandlerStraight(p: Platform, inst: Instance, s: System)
    requires OnCourse(p, inst, s) && InHandler(s.at) && Straight(p, inst, s)
    ensures var t := CallHandler(p, s, true);
            NodesFit(p, inst, t.c) && Straight(p, inst, t) && (t.c.checkpoint.None? ==> Closing(p, inst, t))
  {
    HandlerCallKeepsCourse(p, inst, s);
    var t := CallHandler(p, s, true);
    ReplicaNameIsNotMain(inst);
    assert t.c.sets[inst.main.name] == s.c.sets[inst.main.name];
    NoWorkIsSettled(s.c.sets[inst.main.name]);
  }

  lemma AskStraight(p: Platform, inst: Instance, s: System)
    requires OnCourse(p, inst, s) && s.at.Persist? && Straight(p, inst, s)
    ensures var t := CallPersist(p, s, true); t.c == s.c && Straight(p, inst, t)
  {
  }

  lemma PersistStraight(p: Platform, inst: Instance, s: System)
    requires OnCourse(p, inst, s) && (s.at.PersistCreate? || s.at.PersistUpdate?) && Straight(p, inst, s)
    ensures var t := CallPersist(p, s, true);
            NodesFit(p, inst, t.c) && Straight(p, inst, t) && t.c.checkpoint.Some?
  {
    var t := CallPersist(p, s, true);
    assert t == System(s.c.(checkpoint := Some(s.at.desired)), AfterPersist(inst, s.at.desired));
    SameNodesFit(p, inst, s.c, t.c);
    StageStraight(p, inst, s, s.at.desired);
  }

  lemma StageStraight(p: Platform, inst: Instance, s: System, desired: Stage)
    requires NodesFit(p, inst, s.c) && Straight(p, inst, s) && NodesFit(p, inst, s.c.(checkpoint := Some(desired)))
    requires s.at.PersistCreate? ==> Rank(desired) <= Rank(MainShuttingDown)
    requires s.at.PersistUpdate? ==> s.c.checkpoint.Some? && Rank(desired) == Rank(s.c.checkpoint.value) + 1
    requires (s.at.PersistCreate? || s.at.PersistUpdate?) && s.at.desired == desired
    ensures Straight(p, inst, System(s.c.(checkpoint := Some(desired)), AfterPersist(inst, desired)))
  {
  }

  lemma OtherStraight(p: Platform, inst: Instance, s: System)
    requires WriteSettles(p)
    requires OnCourse(p, inst, s) && Straight(p, inst, s)
    requires s.at.Rest? || InDetection(s.at) || InGate(s.at)
    ensures var t := Call(p, s, true);
            NodesFit(p, inst, t.c) && Straight(p, inst, t) && t.c.checkpoint == s.c.checkpoint
  {
    StepKeepsCourse(p, inst, s, Op(true));
    assert ObsoleteNames(s.c, inst) == {};
    assert Call(p, s, true).c == s.c;
  }

  lemma NodeWriteStraight(p: Platform, inst: Instance, s: System)
    requires WriteSettles(p)
    requires OnCourse(p, inst, s) && s.at.NodeWrite?
    ensures var t := CallNode(p, s, true); NodesFit(p, inst, t.c) && Straight(p, inst, t) && t.c.checkpoint.None?
  {
    var j := s.at.j;
    WriteOfSecondary(p, inst, s.c, j);
    NodeWriteFits(p, inst, s.c, j);
    assert CallNode(p, s, true) == System(Apply(p, s.c, SecondaryRole, inst.secondaries[j]).value, NextNode(inst, j));
  }

  lemma NodeLookStraight(p: Platform, inst: Instance, s: System)
    requires OnCourse(p, inst, s) && Straight(p, inst, s) && (s.at.NodeHook? || s.at.LastCheck?)
    ensures var t := CallNode(p, s, true); t.c == s.c && Straight(p, inst, t)
  {
    if s.at.NodeHook? {
      FoundByName(inst.secondaries, s.at.j);
      assert NodeFits(p, SecondaryRole, inst.secondaries[s.at.j], s.c);
    }
  }

  lemma StepStaysStraight(p: Platform, inst: Instance, s: System, a: Act)
    requires WriteSettles(p)
    requires OnCourse(p, inst, s) && Straight(p, inst, s) && Untorn(inst, s, a)
    ensures var t := Step(p, s, a);
            && NodesFit(p, inst, t.c) && Straight(p, inst, t)
            && (s.c.checkpoint.Some? && t.c.checkpoint.None? ==> Closing(p, inst, t))
  {
    if a.World? {
      EventStaysStraight(p, inst, s, a.event);
    } else {
      CallByGroup(p, s, true);
      if InMain(s.at) {
        MainWriteStraight(p, inst, s);
      } else if InHandler(s.at) {
        HandlerStraight(p, inst, s);
      } else if s.at.Persist? {
        AskStraight(p, inst, s);
      } else if InPersist(s.at) {
        PersistStraight(p, inst, s);
      } else if s.at.NodeWrite? {
        NodeWriteStraight(p, inst, s);
      } else if InNode(s.at) {
        NodeLookStraight(p, inst, s);
      } else {
        OtherStraight(p, inst, s);
      }
    }
  }

  lemma EventStaysClosing(p: Platform, inst: Instance, s: System, e: Event)
    requires OnCourse(p, inst, s) && Closing(p, inst, s) && !e.Edit? && !e.PodFailure?
    ensures NodesFit(p, inst, Happen(s.c, e)) && Closing(p, inst, System(Happen(s.c, e), s.at))
  {
    EventMoves(p, inst, s.c, e);
    MovingFits(p, inst, s.c, Happen(s.c, e));
    EventsHelp(s.c, inst.main.name, e);
    assert AllUpToDate(p, inst, Happen(s.c, e)) <==> AllUpToDate(p, inst, s.c);
  }

  lemma MainStaysClosing(p: Platform, inst: Instance, s: System)
    requires WriteSettles(p)
    requires OnCourse(p, inst, s) && Closing(p, inst, s) && InMain(s.at)
    ensures var t := CallMain(p, s, true); NodesFit(p, inst, t.c) && Closing(p, inst, t)
  {
    var t := CallMain(p, s, true);
    if s.at.MainWrite? {
      MainWriteFits(p, inst, s.c);
    }
    assert t.c.sets == s.c.sets;
    SameNodesFit(p, inst, s.c, t.c);
  }

  lemma GateStaysClosing(p: Platform, inst: Instance, s: System)
    requires OnCourse(p, inst, s) && Closing(p, inst, s) && InGate(s.at)
    ensures var t := CallGate(p, s, true); NodesFit(p, inst, t.c) && Closing(p, inst, t)
  {
    NoWorkIsSettled(s.c.sets[inst.main.name]);
    assert ObsoleteNames(s.c, inst) == {};
    assert CallGate(p, s, true).c == s.c;
  }

  lemma NodeWriteStaysClosing(p: Platform, inst: Instance, s: System)
    requires WriteSettles(p)
    requires OnCourse(p, inst, s) && s.at.NodeWrite?
    ensures var t := CallNode(p, s, true); NodesFit(p, inst, t.c) && Closing(p, inst, t)
  {
    var j := s.at.j;
    WriteOfSecondary(p, inst, s.c, j);
    NodeWriteKeepsCourse(p, inst, s);
    var t := CallNode(p, s, true);
    assert t == System(Apply(p, s.c, SecondaryRole, inst.secondaries[j]).value, NextNode(inst, j));
    assert t.c.sets[inst.main.name] == s.c.sets[inst.main.name];
  }

  lemma NodeLookStaysClosing(p: Platform, inst: Instance, s: System)
    requires OnCourse(p, inst, s) && Closing(p, inst, s) && (s.at.NodeHook? || s.at.LastCheck?)
    ensures var t := CallNode(p, s, true); t.c == s.c && Closing(p, inst, t)
  {
    if s.at.NodeHook? {
      FoundByName(inst.secondaries, s.at.j);
      assert NodeFits(p, SecondaryRole, inst.secondaries[s.at.j], s.c);
    }
  }

  lemma StepStaysClosing(p: Platform, inst: Instance, s: System, a: Act)
    requires WriteSettles(p)
    requires OnCourse(p, inst, s) && Closing(p, inst, s) && Fair(a)
    ensures var t := Step(p, s, a); NodesFit(p, inst, t.c) && Closing(p, inst, t)
  {
    if a.World? {
      EventStaysClosing(p, inst, s, a.event);
    } else {
      CallByGroup(p, s, true);
      if InMain(s.at) {
        MainStaysClosing(p, inst, s);
      } else if InGate(s.at) {
        GateStaysClosing(p, inst, s);
      } else if s.at.NodeWrite? {
        NodeWriteStaysClosing(p, inst, s);
      } else if InNode(s.at) {
        NodeLookStaysClosing(p, inst, s);
      } else {
        assert AllUpToDate(p, inst, s.c);
        assert !InPersist(s.at) && !InHandler(s.at);
        assert Call(p, s, true).c == s.c;
      }
    }
  }

  /** What a run of this kind never leaves: with a checkpoint, or with the work done that it was for. */
  predicate Directed(p: Platform, inst: Instance, s: System) {
    && OnCourse(p, inst, s)
    && Straight(p, inst, s)
    && (s.c.checkpoint.None? ==> Closing(p, inst, s))
  }

  lemma StepStaysDirected(p: Platform, inst: Instance, s: System, a: Act)
    requires WriteSettles(p)
    requires Directed(p, inst, s) && Untorn(inst, s, a)
    ensures Directed(p, inst, Step(p, s, a))
    ensures s.c.checkpoint.None? ==> Step(p, s, a).c.checkpoint.None?
  {
    StepKeepsCourse(p, inst, s, a);
    StepStaysStraight(p, inst, s, a);
    if s.c.checkpoint.None? {
      StepStaysClosing(p, inst, s, a);
    }
  }

  lemma {:induction false} DirectedAlong(p: Platform, inst: Instance, s: System, acts: seq<Act>, i: nat)
    requires WriteSettles(p)
    requires Directed(p, inst, s) && UntornRun(p, inst, s, acts) && i <= |acts|
    ensures Directed(p, inst, Trace(p, s, acts)[i])
  {
    if i > 0 {
      DirectedAlong(p, inst, s, acts, i - 1);
      StepStaysDirected(p, inst, Trace(p, s, acts)[i - 1], acts[i - 1]);
    }
  }

  lemma NoNewCheckpoint(p: Platform, inst: Instance, s: System, acts: seq<Act>, j: nat)
    requires WriteSettles(p)
    requires Directed(p, inst, s) && UntornRun(p, inst, s, acts) && j < |acts|
    ensures Trace(p, s, acts)[j].c.checkpoint.None? ==> Trace(p, s, acts)[j + 1].c.checkpoint.None?
  {
    DirectedAlong(p, inst, s, acts, j);
    StepStaysDirected(p, inst, Trace(p, s, acts)[j], acts[j]);
  }

  lemma {:induction false} NoneStays(h: seq<Option<Stage>>, i: nat, j: nat)
    requires i <= j < |h| && h[i].None?
    requires forall k | 0 <= k && k + 1 < |h| && h[k].None? :: h[k + 1].None?
    ensures h[j].None?
    decreases j
  {
    if i < j {
      NoneStays(h, i, j - 1);
      assert h[j - 1 + 1].None?;
    }
  }

  /** From any moment of an upgrade whose certificate is not torn: once the checkpoint is gone, none
      is ever made again, so it is the only upgrade for its spec, of any number of nodes. */
  lemma OnlyOneUpgrade(p: Platform, inst: Instance, s: System, acts: seq<Act>, i: nat, j: nat)
    requires WriteSettles(p)
    requires Directed(p, inst, s) && UntornRun(p, inst, s, acts) && i <= j <= |acts|
    requires Trace(p, s, acts)[i].c.checkpoint.None?
    ensures Trace(p, s, acts)[j].c.checkpoint.None?
  {
    var h := History(Trace(p, s, acts));
    forall k | 0 <= k && k + 1 < |h| && h[k].None? ensures h[k + 1].None? {
      NoNewCheckpoint(p, inst, s, acts, k);
    }
    NoneStays(h, i, j);
  }

  /** An upgrade starts that way: whoever makes the checkpoint has certified nothing yet. */
  lemma NewUpgradeIsDirected(p: Platform, inst: Instance, s: System)
    requires WriteSettles(p)
    requires OnCourse(p, inst, s) && s.at.PersistCreate?
    ensures var t := Step(p, s, Op(true)); Directed(p, inst, t) && t.c.checkpoint.Some?
  {
    StepKeepsCourse(p, inst, s, Op(true));
    CallByGroup(p, s, true);
  }

  // ---- A torn certificate starts another one ----

  /** An untorn run makes a checkpoint after a moment without one. */
  ghost predicate CanStartAgain(p: Platform, inst: Instance, s: System) {
    WellFormed(s.at) && exists acts: seq<Act>, i: nat :: StartsAgainBy(p, inst, s, acts, i)
  }

  ghost predicate StartsAgainBy(p: Platform, inst: Instance, s: System, acts: seq<Act>, i: nat)
    requires WellFormed(s.at)
  {
    && UntornRun(p, inst, s, acts) && i <= |acts|
    && Trace(p, s, acts)[i].c.checkpoint.None? && Run(p, s, acts).c.checkpoint.Some?
  }

  ghost predicate CanStart(p: Platform, inst: Instance, s: System) {
    WellFormed(s.at) && exists acts: seq<Act> :: UntornRun(p, inst, s, acts) && Run(p, s, acts).c.checkpoint.Some?
  }

  lemma StartIsAgain(p: Platform, inst: Instance, s: System)
    requires CanStart(p, inst, s) && s.c.checkpoint.None?
    ensures CanStartAgain(p, inst, s)
  {
    var acts: seq<Act> :| UntornRun(p, inst, s, acts) && Run(p, s, acts).c.checkpoint.Some?;
    assert StartsAgainBy(p, inst, s, acts, 0);
  }

  lemma UntornAfter(p: Platform, inst: Instance, s: System, a: Act, acts: seq<Act>)
    requires WellFormed(s.at) && Untorn(inst, s, a) && UntornRun(p, inst, Step(p, s, a), acts)
    ensures UntornRun(p, inst, s, [a] + acts)
    ensures Trace(p, s, [a] + acts) == [s] + Trace(p, Step(p, s, a), acts)
    ensures Run(p, s, [a] + acts) == Run(p, Step(p, s, a), acts)
  {
    var all := [a] + acts;
    assert all[1..] == acts;
    forall i | 0 <= i < |all| ensures Untorn(inst, Trace(p, s, all)[i], all[i]) {
      if 0 < i {
        assert Trace(p, s, all)[i] == Trace(p, Step(p, s, a), acts)[i - 1];
      }
    }
  }

  lemma StartBefore(p: Platform, inst: Instance, s: System, a: Act)
    requires WellFormed(s.at) && Untorn(inst, s, a) && CanStart(p, inst, Step(p, s, a))
    ensures CanStart(p, inst, s)
  {
    var t := Step(p, s, a);
    var acts: seq<Act> :| UntornRun(p, inst, t, acts) && Run(p, t, acts).c.checkpoint.Some?;
    UntornAfter(p, inst, s, a, acts);
  }

  lemma StartAgainBefore(p: Platform, inst: Instance, s: System, a: Act)
    requires WellFormed(s.at) && Untorn(inst, s, a) && CanStartAgain(p, inst, Step(p, s, a))
    ensures CanStartAgain(p, inst, s)
  {
    var t := Step(p, s, a);
    var acts: seq<Act>, i: nat :| StartsAgainBy(p, inst, t, acts, i);
    UntornAfter(p, inst, s, a, acts);
    assert StartsAgainBy(p, inst, s, [a] + acts, i + 1);
  }

  lemma {:induction false} StartAfterCalls(p: Platform, inst: Instance, s: System, n: nat)
    requires WellFormed(s.at) && CanStart(p, inst, Calls(p, s, n))
    ensures CanStart(p, inst, s)
    decreases n
  {
    if 0 < n {
      StartAfterCalls(p, inst, Call(p, s, true), n - 1);
      StartBefore(p, inst, s, Op(true));
    }
  }

  lemma {:induction false} StartAgainAfterCalls(p: Platform, inst: Instance, s: System, n: nat)
    requires WellFormed(s.at) && CanStartAgain(p, inst, Calls(p, s, n))
    ensures CanStartAgain(p, inst, s)
    decreases n
  {
    if 0 < n {
      StartAgainAfterCalls(p, inst, Call(p, s, true), n - 1);
      StartAgainBefore(p, inst, s, Op(true));
    }
  }

  lemma StartAfter(p: Platform, inst: Instance, s: System, t: System)
    requires Becomes(p, s, t)
    ensures CanStart(p, inst, t) ==> CanStart(p, inst, s)
    ensures CanStartAgain(p, inst, t) ==> CanStartAgain(p, inst, s)
  {
    var n: nat :| BecomesIn(p, s, t, n);
    if CanStart(p, inst, t) {
      StartAfterCalls(p, inst, s, n);
    }
    if CanStartAgain(p, inst, t) {
      StartAgainAfterCalls(p, inst, s, n);
    }
  }

  /** The templates that the detector compares are the same. */
  predicate SameTemplates(inst: Instance, c: Cluster, d: Cluster) {
    forall i | 0 <= i < |AllNodes(inst)| ::
      var n := AllNodes(inst)[i].name;
      && n in c.sets && n in d.sets
      && d.sets[n].template == c.sets[n].template && d.sets[n].serviceName == c.sets[n].serviceName
  }

  lemma SameTemplatesSameVerdict(p: Platform, inst: Instance, c: Cluster, d: Cluster)
    requires SameTemplates(inst, c, d)
    ensures RestartNeeded(p, inst, d) <==> RestartNeeded(p, inst, c)
  {
    forall i | 0 <= i < |AllNodes(inst)|
      ensures Changed(p, inst, d, i) == Changed(p, inst, c, i) && Unchanged(p, inst, d, i) == Unchanged(p, inst, c, i)
    {
      assert AllNodes(inst)[i].name in c.sets;
    }
  }

  /** A fleet whose upgrade has certified a main node that still has to be replaced. */
  predicate Misled(p: Platform, inst: Instance, c: Cluster) {
    && c.teamcity == Some(inst) && !inst.deleting && inst.zeroDowntime && 0 < |inst.secondaries|
    && NodesFit(p, inst, c) && NoStrangers(inst, c) && DistinctNames(inst)
    && UpToDate(p, inst.main, c)
    && IsNewestGeneration(c.sets[inst.main.name])
    && c.sets[inst.main.name].current != c.sets[inst.main.name].update
    && RestartNeeded(p, inst, c)
  }

  lemma MisledStays(p: Platform, inst: Instance, c: Cluster, d: Cluster)
    requires Misled(p, inst, c) && d.sets == c.sets && d.teamcity == c.teamcity
    ensures Misled(p, inst, d)
  {
    SameNodesFit(p, inst, c, d);
    forall i | 0 <= i < |AllNodes(inst)| ensures AllNodes(inst)[i].name in c.sets {
      NodeInFleet(p, inst, c, i);
    }
    SameTemplatesSameVerdict(p, inst, c, d);
  }

  lemma RequestStarts(p: Platform, inst: Instance, c: Cluster)
    requires c.checkpoint.None?
    ensures CanStart(p, inst, System(c, Persist(inst, MainShuttingDown)))
  {
    var u := System(c.(checkpoint := Some(MainShuttingDown)), Support(inst));
    AskBecomes(p, inst, c, MainShuttingDown);
    assert Run(p, u, []).c.checkpoint.Some? && UntornRun(p, inst, u, []);
    StartAfter(p, inst, System(c, Persist(inst, MainShuttingDown)), u);
  }

  lemma MisledAtRestStarts(p: Platform, inst: Instance, c: Cluster, o: Outcome)
    requires Misled(p, inst, c) && c.checkpoint.None?
    ensures CanStartAgain(p, inst, System(c, Rest(o)))
  {
    var s, t := System(c, Rest(o)), System(c, Opened(p, inst, c));
    assert t.at == Persist(inst, MainShuttingDown);
    RequestStarts(p, inst, c);
    PassOpens(p, inst, c, o);
    StartAfter(p, inst, s, t);
    StartIsAgain(p, inst, s);
  }

  /** The builders find nothing to write, and the gate is closed. */
  lemma MisledBuilderStarts(p: Platform, inst: Instance, c: Cluster)
    requires Misled(p, inst, c) && c.checkpoint.None?
    ensures CanStartAgain(p, inst, System(c, Support(inst)))
  {
    var d := c.(support := inst.support);
    MisledStays(p, inst, c, d);
    MisledAtRestStarts(p, inst, d, Requeued);
    MisledGate(p, inst, d);
    StartAfter(p, inst, System(d, Obsolete(inst)), System(d, Rest(Requeued)));
    UnchangedMainCalls(p, inst, c);
    StartAfter(p, inst, System(c, Support(inst)), System(d, Obsolete(inst)));
  }

  lemma MisledGate(p: Platform, inst: Instance, c: Cluster)
    requires Misled(p, inst, c)
    ensures Becomes(p, System(c, Obsolete(inst)), System(c, Rest(Requeued)))
  {
    var s, t := System(c, Obsolete(inst)), System(c, GateGeneration(inst));
    var u, v, w := System(c, GateRevision(inst, true)), System(c, GateOngoing(inst, false)), System(c, Rest(Requeued));
    assert ObsoleteNames(c, inst) == {};
    CallByGroup(p, v, true);
    CallByGroup(p, u, true);
    CallByGroup(p, t, true);
    CallByGroup(p, s, true);
    BecomesAtOnce(p, w);
    BecomesNext(p, v, w);
    BecomesNext(p, u, w);
    BecomesNext(p, t, w);
    BecomesNext(p, s, w);
  }

  lemma MisledDropStarts(p: Platform, inst: Instance, c: Cluster)
    requires Misled(p, inst, c) && c.checkpoint == Some(UpdateFinished)
    ensures CanStartAgain(p, inst, System(c, DropRead(inst)))
  {
    var d := c.(checkpoint := None);
    var s, t, u := System(c, DropRead(inst)), System(c, DropDelete(inst, true)), System(d, Support(inst));
    MisledStays(p, inst, c, d);
    MisledBuilderStarts(p, inst, d);
    CallByGroup(p, t, true);
    CallByGroup(p, s, true);
    BecomesAtOnce(p, u);
    BecomesNext(p, t, u);
    BecomesNext(p, s, u);
    StartAfter(p, inst, s, u);
  }

  lemma MisledFinishedStarts(p: Platform, inst: Instance, c: Cluster, o: Outcome)
    requires Misled(p, inst, c) && c.checkpoint == Some(UpdateFinished)
    ensures CanStartAgain(p, inst, System(c, Rest(o)))
  {
    MisledDropStarts(p, inst, c);
    PassOpens(p, inst, c, o);
    StartAfter(p, inst, System(c, Rest(o)), System(c, DropRead(inst)));
  }

  lemma MisledRequestStarts(p: Platform, inst: Instance, c: Cluster)
    requires Misled(p, inst, c) && c.checkpoint == Some(MainReady)
    ensures CanStartAgain(p, inst, System(c, Persist(inst, UpdateFinished)))
  {
    var d := c.(checkpoint := Some(UpdateFinished));
    MisledStays(p, inst, c, d);
    MisledFinishedStarts(p, inst, d, Requeued);
    AskBecomes(p, inst, c, UpdateFinished);
    StartAfter(p, inst, System(c, Persist(inst, UpdateFinished)), System(d, Rest(Requeued)));
  }

  lemma RemovalKeepsMisled(p: Platform, inst: Instance, c: Cluster)
    requires Misled(p, inst, c) && !Absent(inst, c)
    ensures Misled(p, inst, Remove(c, ReplicaName(inst)))
  {
    var d := Remove(c, ReplicaName(inst));
    ReplicaNameIsNotMain(inst);
    assert SameNodes(inst, c, d);
    SameNodesFit(p, inst, c, d);
    forall i | 0 <= i < |AllNodes(inst)|
      ensures AllNodes(inst)[i].name in c.sets && d.sets[AllNodes(inst)[i].name] == c.sets[AllNodes(inst)[i].name]
    {
      NodeInFleet(p, inst, c, i);
    }
    SameTemplatesSameVerdict(p, inst, c, d);
  }

  lemma MisledDeleteStarts(p: Platform, inst: Instance, c: Cluster)
    requires Misled(p, inst, c) && c.checkpoint == Some(MainReady) && !Absent(inst, c)
    ensures CanStartAgain(p, inst, System(c, ReplicaDelete(inst)))
  {
    var s := System(c, ReplicaDelete(inst));
    var u := System(Remove(c, ReplicaName(inst)), Persist(inst, UpdateFinished));
    RemovalKeepsMisled(p, inst, c);
    MisledRequestStarts(p, inst, u.c);
    CallByGroup(p, s, true);
    StartAgainBefore(p, inst, s, Op(true));
  }

  lemma MisledLookupStarts(p: Platform, inst: Instance, c: Cluster)
    requires Misled(p, inst, c) && c.checkpoint == Some(MainReady)
    ensures CanStartAgain(p, inst, System(c, ReplicaLookup(inst)))
  {
    var s := System(c, ReplicaLookup(inst));
    CallByGroup(p, s, true);
    if Absent(inst, c) {
      MisledRequestStarts(p, inst, c);
    } else {
      MisledDeleteStarts(p, inst, c);
    }
    StartAgainBefore(p, inst, s, Op(true));
  }

  lemma MisledReadyStarts(p: Platform, inst: Instance, c: Cluster, o: Outcome)
    requires Misled(p, inst, c) && c.checkpoint == Some(MainReady)
    ensures CanStartAgain(p, inst, System(c, Rest(o)))
  {
    MisledLookupStarts(p, inst, c);
    PassOpens(p, inst, c, o);
    StartAfter(p, inst, System(c, Rest(o)), System(c, ReplicaLookup(inst)));
  }

  lemma TornStarts(p: Platform, inst: Instance, s: System)
    requires s.at == CertGeneration(inst, true) && s.c.checkpoint == Some(MainShuttingDown) && Misled(p, inst, s.c)
    ensures CanStartAgain(p, inst, s)
  {
    var d := s.c.(checkpoint := Some(MainReady));
    var t, u := System(s.c, Persist(inst, MainReady)), System(d, Rest(Requeued));
    MisledStays(p, inst, s.c, d);
    MisledReadyStarts(p, inst, d, Requeued);
    AskBecomes(p, inst, s.c, MainReady);
    CallByGroup(p, s, true);
    BecomesNext(p, s, u);
    StartAfter(p, inst, s, u);
  }

  lemma UntornNeverStartsAgain(p: Platform, inst: Instance, s: System)
    requires WriteSettles(p) && Directed(p, inst, s)
    ensures !CanStartAgain(p, inst, s)
  {
    forall acts: seq<Act>, i: nat ensures !StartsAgainBy(p, inst, s, acts, i) {
      if UntornRun(p, inst, s, acts) && i <= |acts| && Trace(p, s, acts)[i].c.checkpoint.None? {
        OnlyOneUpgrade(p, inst, s, acts, i, |acts|);
      }
    }
  }

  /** In a fleet with a secondary still to be upgraded, the controller's look between the two reads
      of the certificate makes a second upgrade possible exactly if the revisions were read too
      early: the first one ends before the main node is rolled out, so the gate is closed. */
  lemma TornCertificateRestarts(p: Platform, inst: Instance, s: System)
    requires WriteSettles(p) && Directed(p, inst, s)
    requires s.at == CertGeneration(inst, true) && s.c.checkpoint == Some(MainShuttingDown)
    requires inst.zeroDowntime && 0 < |inst.secondaries| && RestartNeeded(p, inst, s.c)
    ensures CanStartAgain(p, inst, Step(p, s, World(Observe(inst.main.name)))) <==> TearsAt(inst, s)
  {
    var e := Observe(inst.main.name);
    var t := Step(p, s, World(e));
    EventKeepsCourse(p, inst, s, e);
    if TearsAt(inst, s) {
      ObservedIsMisled(p, inst, s);
      TornStarts(p, inst, t);
    } else {
      StepStaysDirected(p, inst, s, World(e));
      UntornNeverStartsAgain(p, inst, t);
    }
  }

  lemma ObservedIsMisled(p: Platform, inst: Instance, s: System)
    requires Directed(p, inst, s) && TearsAt(inst, s) && s.c.checkpoint == Some(MainShuttingDown)
    requires inst.zeroDowntime && 0 < |inst.secondaries| && RestartNeeded(p, inst, s.c)
    ensures Misled(p, inst, Happen(s.c, Observe(inst.main.name)))
  {
    var d := Happen(s.c, Observe(inst.main.name));
    EventMoves(p, inst, s.c, Observe(inst.main.name));
    MovingFits(p, inst, s.c, d);
    forall i | 0 <= i < |AllNodes(inst)|
      ensures var n := AllNodes(inst)[i].name;
              && n in s.c.sets && n in d.sets
              && d.sets[n].template == s.c.sets[n].template && d.sets[n].serviceName == s.c.sets[n].serviceName
    {
      NodeInFleet(p, inst, s.c, i);
    }
    SameTemplatesSameVerdict(p, inst, s.c, d);
  }
}
