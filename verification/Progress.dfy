/** Upgrades end, of any number of nodes, with the cluster moving between any two calls: a measure
    that no fair step raises and every fair round lowers. */
module Progress {
  import opened PodTree
  import opened PodTemplate
  import opened Stages
  import opened Cluster
  import opened Protocol
  import opened StageProtocol
  import opened Rollouts
  import opened Course

  // ---- The measure ----

  /** Steps that one node is away from running what the spec asks for. */
  function Left(p: Platform, node: Node, c: Cluster): (n: nat)
    requires node.name in c.sets
    ensures n <= 10
  {
    Work(c.sets[node.name]) + (if UpToDate(p, node, c) then 0 else 5)
  }

  function MainLeft(p: Platform, inst: Instance, c: Cluster): nat
    requires NodesFit(p, inst, c)
  {
    Left(p, inst.main, c)
  }

  function SecondaryLeft(p: Platform, inst: Instance, c: Cluster, i: nat): nat
    requires NodesFit(p, inst, c) && i < |inst.secondaries|
  {
    assert NodeFits(p, SecondaryRole, inst.secondaries[i], c);
    Left(p, inst.secondaries[i], c)
  }

  function SecondariesLeft(p: Platform, inst: Instance, c: Cluster, j: nat): (n: nat)
    requires NodesFit(p, inst, c) && j <= |inst.secondaries|
    ensures n <= 10 * j
  {
    if j == 0 then 0 else SecondariesLeft(p, inst, c, j - 1) + SecondaryLeft(p, inst, c, j - 1)
  }

  /** The replica does not count while the operator may still write or delete it. */
  function ReplicaLeft(inst: Instance, c: Cluster): (n: nat)
    ensures n <= 5
  {
    if c.checkpoint in {Some(ReplicaCreated), Some(MainReady)} || Absent(inst, c) then 0
    else Work(c.sets[ReplicaName(inst)])
  }

  /** The rollout has been read as finished although the pod still has to be replaced. */
  predicate Certifying(at: Point) {
    (at.CertGeneration? && at.finished) || ((at.Persist? || at.PersistUpdate?) && at.desired == MainReady)
  }

  /** The stages in the order in which they are left behind while the main node is what it is. An
      upgrade that certified too early comes to its end and starts again before it waits. */
  function StagePosition(p: Platform, inst: Instance, s: System): (n: nat)
    requires NodesFit(p, inst, s.c)
    ensures n < 13
  {
    var rolled := Work(s.c.sets[inst.main.name]) == 0;
    match s.c.checkpoint
    case None => if AllUpToDate(p, inst, s.c) then 0 else if rolled && Building(s.at) then 1 else 9
    case Some(UpdateInitiated) => 8
    case Some(ReplicaCreated) => 7
    case Some(ReplicaStarting) => 6
    case Some(ReplicaReady) => 5
    case Some(MainShuttingDown) => if 0 < Work(s.c.sets[inst.main.name]) < 4 && Certifying(s.at) then 12 else 4
    case Some(MainReady) => if rolled then 3 else 11
    case Some(UpdateFinished) => if rolled then 2 else 10
  }

  function Scale(inst: Instance): nat {
    10 * |inst.secondaries| + 6
  }

  function Minor(p: Platform, inst: Instance, c: Cluster): (n: nat)
    requires NodesFit(p, inst, c)
    ensures n < Scale(inst)
  {
    SecondariesLeft(p, inst, c, |inst.secondaries|) + ReplicaLeft(inst, c)
  }

  /** Lexicographic in the main node, the stage, and everything else. */
  function Remaining(p: Platform, inst: Instance, s: System): nat
    requires NodesFit(p, inst, s.c)
  {
    (MainLeft(p, inst, s.c) * 13 + StagePosition(p, inst, s)) * Scale(inst) + Minor(p, inst, s.c)
  }

  lemma Lexicographic(a: nat, b: nat, x: nat, y: nat, k: nat)
    requires x < k && y < k
    ensures a < b ==> a * k + x < b * k + y
    ensures a == b && x < y ==> a * k + x < b * k + y
  {
    if a < b {
      assert (a + 1) * k <= b * k;
    }
  }

  /** Nothing has moved, component by component. */
  predicate Level(p: Platform, inst: Instance, s: System, t: System)
    requires NodesFit(p, inst, s.c) && NodesFit(p, inst, t.c)
  {
    && MainLeft(p, inst, t.c) == MainLeft(p, inst, s.c)
    && StagePosition(p, inst, t) == StagePosition(p, inst, s)
    && (forall i | 0 <= i < |inst.secondaries| :: SecondaryLeft(p, inst, t.c, i) == SecondaryLeft(p, inst, s.c, i))
    && ReplicaLeft(inst, t.c) == ReplicaLeft(inst, s.c)
  }

  predicate NoHigher(p: Platform, inst: Instance, s: System, t: System)
    requires NodesFit(p, inst, s.c) && NodesFit(p, inst, t.c)
  {
    || MainLeft(p, inst, t.c) < MainLeft(p, inst, s.c)
    || (&& MainLeft(p, inst, t.c) == MainLeft(p, inst, s.c)
        && (|| StagePosition(p, inst, t) < StagePosition(p, inst, s)
            || (&& StagePosition(p, inst, t) == StagePosition(p, inst, s)
                && (forall i | 0 <= i < |inst.secondaries| ::
                    SecondaryLeft(p, inst, t.c, i) <= SecondaryLeft(p, inst, s.c, i))
                && ReplicaLeft(inst, t.c) <= ReplicaLeft(inst, s.c))))
  }

  lemma {:induction false} SumsCompare(p: Platform, inst: Instance, c: Cluster, d: Cluster, j: nat)
    requires NodesFit(p, inst, c) && NodesFit(p, inst, d) && j <= |inst.secondaries|
    requires forall i | 0 <= i < j :: SecondaryLeft(p, inst, d, i) <= SecondaryLeft(p, inst, c, i)
    ensures SecondariesLeft(p, inst, d, j) <= SecondariesLeft(p, inst, c, j)
    ensures (exists i | 0 <= i < j :: SecondaryLeft(p, inst, d, i) < SecondaryLeft(p, inst, c, i)) ==>
              SecondariesLeft(p, inst, d, j) < SecondariesLeft(p, inst, c, j)
  {
    if j > 0 {
      SumsCompare(p, inst, c, d, j - 1);
    }
  }

  lemma LevelIsEqual(p: Platform, inst: Instance, s: System, t: System)
    requires NodesFit(p, inst, s.c) && NodesFit(p, inst, t.c) && Level(p, inst, s, t)
    ensures Remaining(p, inst, t) == Remaining(p, inst, s)
  {
    SumsCompare(p, inst, s.c, t.c, |inst.secondaries|);
    SumsCompare(p, inst, t.c, s.c, |inst.secondaries|);
  }

  /** A step that goes nowhere leaves every component alone; any other one lowers the measure. */
  lemma LevelOrLower(p: Platform, inst: Instance, s: System, t: System)
    requires NodesFit(p, inst, s.c) && NodesFit(p, inst, t.c) && NoHigher(p, inst, s, t)
    ensures Level(p, inst, s, t) || Remaining(p, inst, t) < Remaining(p, inst, s)
  {
    var a := MainLeft(p, inst, t.c) * 13 + StagePosition(p, inst, t);
    var b := MainLeft(p, inst, s.c) * 13 + StagePosition(p, inst, s);
    Lexicographic(a, b, Minor(p, inst, t.c), Minor(p, inst, s.c), Scale(inst));
    if a == b {
      SumsCompare(p, inst, s.c, t.c, |inst.secondaries|);
    }
  }

  // ---- No fair step raises it ----

  lemma EventPosition(p: Platform, inst: Instance, s: System, d: Cluster)
    requires NodesFit(p, inst, s.c) && NodesFit(p, inst, d) && d.checkpoint == s.c.checkpoint
    requires AllUpToDate(p, inst, d) <==> AllUpToDate(p, inst, s.c)
    requires Work(d.sets[inst.main.name]) == Work(s.c.sets[inst.main.name])
    ensures StagePosition(p, inst, System(d, s.at)) == StagePosition(p, inst, s)
  {
  }

  lemma EventNoHigher(p: Platform, inst: Instance, s: System, e: Event)
    requires OnCourse(p, inst, s) && !e.Edit? && !e.PodFailure?
    ensures NodesFit(p, inst, Happen(s.c, e))
    ensures NoHigher(p, inst, s, System(Happen(s.c, e), s.at))
  {
    var d := Happen(s.c, e);
    EventMoves(p, inst, s.c, e);
    MovingFits(p, inst, s.c, d);
    forall i | 0 <= i < |inst.secondaries| ensures SecondaryLeft(p, inst, d, i) <= SecondaryLeft(p, inst, s.c, i) {
      assert NodeFits(p, SecondaryRole, inst.secondaries[i], s.c);
    }
    EventLowersReplica(inst, s.c, e);
    if Work(d.sets[inst.main.name]) == Work(s.c.sets[inst.main.name]) {
      assert AllUpToDate(p, inst, d) <==> AllUpToDate(p, inst, s.c);
      EventPosition(p, inst, s, d);
    }
  }

  lemma EventLowersReplica(inst: Instance, c: Cluster, e: Event)
    requires NoStrangers(inst, c) && !e.Edit? && !e.PodFailure?
    ensures ReplicaLeft(inst, Happen(c, e)) <= ReplicaLeft(inst, c)
    ensures && !Absent(inst, c) && 0 < ReplicaLeft(inst, c)
            && e == NextEvent(ReplicaName(inst), c.sets[ReplicaName(inst)]) ==>
              ReplicaLeft(inst, Happen(c, e)) < ReplicaLeft(inst, c)
  {
    var r := ReplicaName(inst);
    if r in c.sets && !c.sets[r].terminating {
      EventsHelp(c, r, e);
    }
  }

  /** Calls that leave the StatefulSets alone are judged by the stage alone. */
  lemma SameSetsNoHigher(p: Platform, inst: Instance, s: System, t: System)
    requires OnCourse(p, inst, s) && t.c.sets == s.c.sets
    requires NodesFit(p, inst, t.c) ==>
               || StagePosition(p, inst, t) < StagePosition(p, inst, s)
               || (StagePosition(p, inst, t) == StagePosition(p, inst, s) && t.c.checkpoint == s.c.checkpoint)
    ensures NodesFit(p, inst, t.c) && NoHigher(p, inst, s, t)
  {
    SameNodesFit(p, inst, s.c, t.c);
    forall i | 0 <= i < |inst.secondaries| ensures SecondaryLeft(p, inst, t.c, i) == SecondaryLeft(p, inst, s.c, i) {
      assert NodeFits(p, SecondaryRole, inst.secondaries[i], s.c);
    }
  }

  lemma DetectNoHigher(p: Platform, inst: Instance, s: System)
    requires OnCourse(p, inst, s) && s.at.Detect?
    ensures var t := CallDetection(p, s, true); NodesFit(p, inst, t.c) && NoHigher(p, inst, s, t)
  {
    var t := CallDetection(p, s, true);
    NodeInFleet(p, inst, s.c, s.at.i);
    assert t.c == s.c && (t.at.Detect? || t.at.ReadStage? || t.at.Support?);
    SameSetsNoHigher(p, inst, s, t);
  }

  lemma LookNoHigher(p: Platform, inst: Instance, s: System)
    requires OnCourse(p, inst, s) && (s.at.Rest? || s.at.ReadOngoing? || s.at.ReadStage?)
    ensures NodesFit(p, inst, Call(p, s, true).c) && NoHigher(p, inst, s, Call(p, s, true))
  {
    var t := Call(p, s, true);
    assert t.c == s.c && !Certifying(t.at);
    SameSetsNoHigher(p, inst, s, t);
  }

  lemma AskNoHigher(p: Platform, inst: Instance, s: System)
    requires OnCourse(p, inst, s) && s.at.Persist?
    ensures var t := CallPersist(p, s, true); NodesFit(p, inst, t.c) && NoHigher(p, inst, s, t)
  {
    var t := CallPersist(p, s, true);
    assert t.c == s.c;
    SameSetsNoHigher(p, inst, s, t);
  }

  lemma CreateNoHigher(p: Platform, inst: Instance, s: System)
    requires OnCourse(p, inst, s) && s.at.PersistCreate?
    ensures var t := CallPersist(p, s, true); NodesFit(p, inst, t.c) && NoHigher(p, inst, s, t)
  {
    var t := CallPersist(p, s, true);
    SameNodesFit(p, inst, s.c, t.c);
    assert StagePosition(p, inst, s) == 9;
    SameSetsNoHigher(p, inst, s, t);
  }

  lemma AdvanceNoHigher(p: Platform, inst: Instance, s: System)
    requires OnCourse(p, inst, s) && s.at.PersistUpdate?
    ensures var t := CallPersist(p, s, true); NodesFit(p, inst, t.c) && NoHigher(p, inst, s, t)
  {
    var t := CallPersist(p, s, true);
    SameNodesFit(p, inst, s.c, t.c);
    assert t.c.checkpoint == Some(s.at.desired) && Rank(s.at.desired) == Rank(s.c.checkpoint.value) + 1;
    assert StagePosition(p, inst, t) < StagePosition(p, inst, s);
    SameSetsNoHigher(p, inst, s, t);
  }

  lemma PersistNoHigher(p: Platform, inst: Instance, s: System)
    requires OnCourse(p, inst, s) && InPersist(s.at)
    ensures var t := CallPersist(p, s, true); NodesFit(p, inst, t.c) && NoHigher(p, inst, s, t)
  {
    if s.at.Persist? {
      AskNoHigher(p, inst, s);
    } else if s.at.PersistCreate? {
      CreateNoHigher(p, inst, s);
    } else {
      AdvanceNoHigher(p, inst, s);
    }
  }

  lemma ReplicaCallKeepsNodes(p: Platform, inst: Instance, s: System)
    requires OnCourse(p, inst, s) && (s.at.ReplicaMake? || s.at.ReplicaDelete?)
    ensures var t := CallHandler(p, s, true);
            && SameNodes(inst, s.c, t.c) && t.c.checkpoint == s.c.checkpoint
            && t.c.checkpoint in {Some(ReplicaCreated), Some(MainReady)}
  {
    ReplicaNameIsNotMain(inst);
  }

  lemma SameNodesNoHigher(p: Platform, inst: Instance, s: System, t: System)
    requires NodesFit(p, inst, s.c) && SameNodes(inst, s.c, t.c) && t.c.checkpoint == s.c.checkpoint
    requires t.c.checkpoint in {Some(ReplicaCreated), Some(MainReady)}
    ensures NodesFit(p, inst, t.c) && NoHigher(p, inst, s, t)
  {
    SameNodesFit(p, inst, s.c, t.c);
    forall i | 0 <= i < |inst.secondaries| ensures SecondaryLeft(p, inst, t.c, i) == SecondaryLeft(p, inst, s.c, i) {
      assert NodeFits(p, SecondaryRole, inst.secondaries[i], s.c);
    }
    Assembled(p, inst, s, t);
  }

  lemma ReplicaMakeNoHigher(p: Platform, inst: Instance, s: System)
    requires OnCourse(p, inst, s) && (s.at.ReplicaMake? || s.at.ReplicaDelete?)
    ensures var t := CallHandler(p, s, true); NodesFit(p, inst, t.c) && NoHigher(p, inst, s, t)
  {
    ReplicaCallKeepsNodes(p, inst, s);
    SameNodesNoHigher(p, inst, s, CallHandler(p, s, true));
  }

  lemma HandlerNoHigher(p: Platform, inst: Instance, s: System)
    requires OnCourse(p, inst, s) && InHandler(s.at) && !s.at.ReplicaMake? && !s.at.ReplicaDelete?
    ensures var t := CallHandler(p, s, true); NodesFit(p, inst, t.c) && NoHigher(p, inst, s, t)
  {
    var t := CallHandler(p, s, true);
    NoWorkIsSettled(s.c.sets[inst.main.name]);
    SameNodesFit(p, inst, s.c, t.c);
    SameSetsNoHigher(p, inst, s, t);
  }

  lemma MainNoHigher(p: Platform, inst: Instance, s: System)
    requires WriteSettles(p)
    requires OnCourse(p, inst, s) && InMain(s.at)
    ensures var t := CallMain(p, s, true); NodesFit(p, inst, t.c) && NoHigher(p, inst, s, t)
  {
    var t := CallMain(p, s, true);
    if s.at.MainWrite? {
      MainWriteFits(p, inst, s.c);
      if UpToDate(p, inst.main, s.c) {
        SameSetsNoHigher(p, inst, s, t);
      }
    } else {
      SameSetsNoHigher(p, inst, s, t);
    }
  }

  lemma GateNoHigher(p: Platform, inst: Instance, s: System)
    requires OnCourse(p, inst, s) && InGate(s.at)
    ensures var t := CallGate(p, s, true); NodesFit(p, inst, t.c) && NoHigher(p, inst, s, t)
  {
    var t := CallGate(p, s, true);
    NoWorkIsSettled(s.c.sets[inst.main.name]);
    if s.at.Obsolete? {
      assert ObsoleteNames(s.c, inst) == {};
    }
    assert t.c == s.c && !Certifying(t.at) && !Certifying(s.at);
    SameSetsNoHigher(p, inst, s, t);
  }

  lemma SecondaryWritePosition(p: Platform, inst: Instance, s: System, d: Cluster)
    requires OnCourse(p, inst, s) && s.at.NodeWrite? && NodesFit(p, inst, d)
    requires OnlySecondary(inst, s.c, d, s.at.j) && UpToDate(p, inst.secondaries[s.at.j], d)
    ensures StagePosition(p, inst, System(d, NextNode(inst, s.at.j))) <= StagePosition(p, inst, s)
  {
    assert d.sets[inst.main.name] == s.c.sets[inst.main.name];
    if AllUpToDate(p, inst, s.c) {
      forall i | 0 <= i < |inst.secondaries| ensures UpToDate(p, inst.secondaries[i], d) {
        assert i != s.at.j ==> d.sets[inst.secondaries[i].name] == s.c.sets[inst.secondaries[i].name];
      }
    }
  }

  lemma SecondaryWriteLeft(p: Platform, inst: Instance, c: Cluster, d: Cluster, j: nat)
    requires NodesFit(p, inst, c) && NodesFit(p, inst, d) && NoStrangers(inst, c) && DistinctNames(inst)
    requires j < |inst.secondaries| && OnlySecondary(inst, c, d, j)
    requires SecondaryLeft(p, inst, d, j) <= SecondaryLeft(p, inst, c, j)
    ensures forall i | 0 <= i < |inst.secondaries| :: SecondaryLeft(p, inst, d, i) <= SecondaryLeft(p, inst, c, i)
    ensures MainLeft(p, inst, d) == MainLeft(p, inst, c)
    ensures ReplicaLeft(inst, d) == ReplicaLeft(inst, c)
  {
    forall i | 0 <= i < |inst.secondaries| ensures SecondaryLeft(p, inst, d, i) <= SecondaryLeft(p, inst, c, i) {
      assert NodeFits(p, SecondaryRole, inst.secondaries[i], c);
    }
  }

  lemma Assembled(p: Platform, inst: Instance, s: System, t: System)
    requires NodesFit(p, inst, s.c) && NodesFit(p, inst, t.c)
    requires StagePosition(p, inst, t) <= StagePosition(p, inst, s) && MainLeft(p, inst, t.c) == MainLeft(p, inst, s.c)
    requires forall i | 0 <= i < |inst.secondaries| :: SecondaryLeft(p, inst, t.c, i) <= SecondaryLeft(p, inst, s.c, i)
    requires ReplicaLeft(inst, t.c) <= ReplicaLeft(inst, s.c)
    ensures NoHigher(p, inst, s, t)
  {
  }

  lemma NodeWriteNoHigher(p: Platform, inst: Instance, s: System)
    requires WriteSettles(p)
    requires OnCourse(p, inst, s) && s.at.NodeWrite?
    ensures var t := CallNode(p, s, true); NodesFit(p, inst, t.c) && NoHigher(p, inst, s, t)
  {
    var j := s.at.j;
    WriteOfSecondary(p, inst, s.c, j);
    NodeWriteFits(p, inst, s.c, j);
    var d := Apply(p, s.c, SecondaryRole, inst.secondaries[j]).value;
    assert SecondaryLeft(p, inst, d, j) <= SecondaryLeft(p, inst, s.c, j);
    SecondaryWriteLeft(p, inst, s.c, d, j);
    SecondaryWritePosition(p, inst, s, d);
    Assembled(p, inst, s, System(d, NextNode(inst, j)));
  }

  lemma NodeLookNoHigher(p: Platform, inst: Instance, s: System)
    requires OnCourse(p, inst, s) && s.at.NodeHook?
    ensures var t := CallNode(p, s, true); NodesFit(p, inst, t.c) && NoHigher(p, inst, s, t)
  {
    FoundByName(inst.secondaries, s.at.j);
    assert NodeFits(p, SecondaryRole, inst.secondaries[s.at.j], s.c);
    assert CallNode(p, s, true) == System(s.c, NodeWrite(inst, s.at.j));
    SameSetsNoHigher(p, inst, s, System(s.c, NodeWrite(inst, s.at.j)));
  }

  lemma LastCheckNoHigher(p: Platform, inst: Instance, s: System)
    requires OnCourse(p, inst, s) && s.at.LastCheck?
    ensures var t := CallNode(p, s, true); NodesFit(p, inst, t.c) && NoHigher(p, inst, s, t)
  {
    SameSetsNoHigher(p, inst, s, CallNode(p, s, true));
  }

  lemma StepNoHigher(p: Platform, inst: Instance, s: System, a: Act)
    requires WriteSettles(p)
    requires OnCourse(p, inst, s) && Fair(a)
    ensures var t := Step(p, s, a); NodesFit(p, inst, t.c) && NoHigher(p, inst, s, t)
  {
    if a.World? {
      EventNoHigher(p, inst, s, a.event);
    } else {
      CallByGroup(p, s, true);
      if s.at.Detect? {
        DetectNoHigher(p, inst, s);
      } else if s.at.Rest? || InDetection(s.at) {
        LookNoHigher(p, inst, s);
      } else if InPersist(s.at) {
        PersistNoHigher(p, inst, s);
      } else if s.at.ReplicaMake? || s.at.ReplicaDelete? {
        ReplicaMakeNoHigher(p, inst, s);
      } else if InHandler(s.at) {
        HandlerNoHigher(p, inst, s);
      } else if InMain(s.at) {
        MainNoHigher(p, inst, s);
      } else if InGate(s.at) {
        GateNoHigher(p, inst, s);
      } else if s.at.NodeWrite? {
        NodeWriteNoHigher(p, inst, s);
      } else if s.at.NodeHook? {
        NodeLookNoHigher(p, inst, s);
      } else {
        LastCheckNoHigher(p, inst, s);
      }
    }
  }

  // ---- A fair round lowers it ----

  lemma {:induction false} RunNoHigher(p: Platform, inst: Instance, s: System, acts: seq<Act>)
    requires WriteSettles(p)
    requires OnCourse(p, inst, s) && AllFair(acts)
    ensures OnCourse(p, inst, Run(p, s, acts))
    ensures Level(p, inst, s, Run(p, s, acts)) || Remaining(p, inst, Run(p, s, acts)) < Remaining(p, inst, s)
    ensures Remaining(p, inst, Run(p, s, acts)) <= Remaining(p, inst, s)
    decreases |acts|
  {
    if acts != [] {
      var t := Step(p, s, acts[0]);
      StepKeepsCourse(p, inst, s, acts[0]);
      StepNoHigher(p, inst, s, acts[0]);
      LevelOrLower(p, inst, s, t);
      if Level(p, inst, s, t) {
        LevelIsEqual(p, inst, s, t);
      }
      RunNoHigher(p, inst, t, acts[1..]);
    }
  }

  /** A StatefulSet that counts and has something left to do. */
  predicate Waits(p: Platform, inst: Instance, c: Cluster, n: string)
    requires NodesFit(p, inst, c)
  {
    && n in c.sets && 0 < Work(c.sets[n])
    && (n == inst.main.name || n in SecondaryNames(inst) || (n == ReplicaName(inst) && 0 < ReplicaLeft(inst, c)))
  }

  /** What the StatefulSet `n` waits for, when it happens, lowers the measure. */
  lemma AwaitedHelps(p: Platform, inst: Instance, s: System, n: string)
    requires OnCourse(p, inst, s) && Waits(p, inst, s.c, n)
    ensures var e := NextEvent(n, s.c.sets[n]);
            && !e.Edit? && !e.PodFailure?
            && NodesFit(p, inst, Happen(s.c, e))
            && Remaining(p, inst, System(Happen(s.c, e), s.at)) < Remaining(p, inst, s)
  {
    var e := NextEvent(n, s.c.sets[n]);
    var t := System(Happen(s.c, e), s.at);
    EventNoHigher(p, inst, s, e);
    LevelOrLower(p, inst, s, t);
    AwaitedMoves(p, inst, s, n);
  }

  lemma AwaitedMoves(p: Platform, inst: Instance, s: System, n: string)
    requires OnCourse(p, inst, s) && Waits(p, inst, s.c, n)
    requires NodesFit(p, inst, Happen(s.c, NextEvent(n, s.c.sets[n])))
    ensures !Level(p, inst, s, System(Happen(s.c, NextEvent(n, s.c.sets[n])), s.at))
  {
    var e := NextEvent(n, s.c.sets[n]);
    var d := Happen(s.c, e);
    if n == inst.main.name {
      EventsHelp(s.c, n, e);
      assert MainLeft(p, inst, d) < MainLeft(p, inst, s.c);
    } else if n in SecondaryNames(inst) {
      var i :| 0 <= i < |inst.secondaries| && inst.secondaries[i].name == n;
      assert NodeFits(p, SecondaryRole, inst.secondaries[i], s.c);
      EventsHelp(s.c, n, e);
      assert SecondaryLeft(p, inst, d, i) < SecondaryLeft(p, inst, s.c, i);
    } else {
      EventLowersReplica(inst, s.c, e);
    }
  }

  /** As long as nothing has moved, it waits for the same. */
  lemma LevelWaits(p: Platform, inst: Instance, s: System, t: System, n: string)
    requires OnCourse(p, inst, s) && OnCourse(p, inst, t) && Level(p, inst, s, t) && Waits(p, inst, s.c, n)
    ensures Waits(p, inst, t.c, n) && NextEvent(n, t.c.sets[n]) == NextEvent(n, s.c.sets[n])
  {
    if n == inst.main.name {
      SameLeftSameEvent(p, inst.main, s.c, t.c);
    } else if n in SecondaryNames(inst) {
      LevelSecondaryWaits(p, inst, s, t, n);
    } else {
      LevelReplicaWaits(inst, s.c, t.c);
    }
  }

  lemma LevelSecondaryWaits(p: Platform, inst: Instance, s: System, t: System, n: string)
    requires NodesFit(p, inst, s.c) && NodesFit(p, inst, t.c) && Level(p, inst, s, t) && n in SecondaryNames(inst)
    ensures n in s.c.sets && n in t.c.sets
    ensures Work(t.c.sets[n]) == Work(s.c.sets[n]) && NextEvent(n, t.c.sets[n]) == NextEvent(n, s.c.sets[n])
  {
    var i :| 0 <= i < |inst.secondaries| && inst.secondaries[i].name == n;
    assert NodeFits(p, SecondaryRole, inst.secondaries[i], s.c) && NodeFits(p, SecondaryRole, inst.secondaries[i], t.c);
    assert SecondaryLeft(p, inst, t.c, i) == SecondaryLeft(p, inst, s.c, i);
    SameLeftSameEvent(p, inst.secondaries[i], s.c, t.c);
  }

  lemma LevelReplicaWaits(inst: Instance, c: Cluster, d: Cluster)
    requires ReplicaLeft(inst, d) == ReplicaLeft(inst, c) && 0 < ReplicaLeft(inst, c)
    ensures var n := ReplicaName(inst);
            && n in c.sets && n in d.sets
            && Work(d.sets[n]) == Work(c.sets[n]) && NextEvent(n, d.sets[n]) == NextEvent(n, c.sets[n])
  {
  }

  lemma SameLeftSameEvent(p: Platform, node: Node, c: Cluster, d: Cluster)
    requires node.name in c.sets && node.name in d.sets && Left(p, node, c) == Left(p, node, d)
    requires !c.sets[node.name].terminating && !d.sets[node.name].terminating
    ensures Work(c.sets[node.name]) == Work(d.sets[node.name])
    ensures NextEvent(node.name, c.sets[node.name]) == NextEvent(node.name, d.sets[node.name])
  {
  }

  lemma {:induction false} AwaitedInRunHelps(p: Platform, inst: Instance, s: System, acts: seq<Act>, n: string)
    requires WriteSettles(p)
    requires OnCourse(p, inst, s) && AllFair(acts)
    requires Waits(p, inst, s.c, n) && World(NextEvent(n, s.c.sets[n])) in acts
    ensures NodesFit(p, inst, Run(p, s, acts).c)
    ensures Remaining(p, inst, Run(p, s, acts)) < Remaining(p, inst, s)
    decreases |acts|
  {
    var t := Step(p, s, acts[0]);
    StepKeepsCourse(p, inst, s, acts[0]);
    StepNoHigher(p, inst, s, acts[0]);
    LevelOrLower(p, inst, s, t);
    RunNoHigher(p, inst, t, acts[1..]);
    if acts[0] == World(NextEvent(n, s.c.sets[n])) {
      AwaitedHelps(p, inst, s, n);
    } else if Level(p, inst, s, t) {
      LevelIsEqual(p, inst, s, t);
      LevelWaits(p, inst, s, t, n);
      AwaitedInRunHelps(p, inst, t, acts[1..], n);
    }
  }

  // ---- When the cluster waits for nothing, the next pass gets somewhere ----

  predicate Idle(p: Platform, inst: Instance, c: Cluster)
    requires NodesFit(p, inst, c)
  {
    && Work(c.sets[inst.main.name]) == 0
    && (forall i | 0 <= i < |inst.secondaries| :: SecondaryWork(p, inst, c, i) == 0)
    && ReplicaLeft(inst, c) == 0
  }

  function SecondaryWork(p: Platform, inst: Instance, c: Cluster, i: nat): nat
    requires NodesFit(p, inst, c) && i < |inst.secondaries|
  {
    assert NodeFits(p, SecondaryRole, inst.secondaries[i], c);
    Work(c.sets[inst.secondaries[i].name])
  }

  lemma IdleOrWaits(p: Platform, inst: Instance, c: Cluster)
    requires NodesFit(p, inst, c)
    ensures Idle(p, inst, c) || exists n :: Waits(p, inst, c, n)
  {
    if 0 < Work(c.sets[inst.main.name]) {
      assert Waits(p, inst, c, inst.main.name);
    } else if i :| 0 <= i < |inst.secondaries| && 0 < SecondaryWork(p, inst, c, i) {
      assert NodeFits(p, SecondaryRole, inst.secondaries[i], c);
      assert Waits(p, inst, c, inst.secondaries[i].name);
    } else if 0 < ReplicaLeft(inst, c) {
      assert Waits(p, inst, c, ReplicaName(inst));
    }
  }

  lemma LevelIdle(p: Platform, inst: Instance, s: System, t: System)
    requires NodesFit(p, inst, s.c) && NodesFit(p, inst, t.c) && Level(p, inst, s, t) && Idle(p, inst, s.c)
    ensures Idle(p, inst, t.c)
  {
    SameLeftSameEvent(p, inst.main, s.c, t.c);
    forall i | 0 <= i < |inst.secondaries| ensures SecondaryWork(p, inst, t.c, i) == 0 {
      var node := inst.secondaries[i];
      assert NodeFits(p, SecondaryRole, node, s.c) && NodeFits(p, SecondaryRole, node, t.c);
      assert SecondaryLeft(p, inst, t.c, i) == SecondaryLeft(p, inst, s.c, i) && SecondaryWork(p, inst, s.c, i) == 0;
      SameLeftSameEvent(p, node, s.c, t.c);
    }
  }

  /** A pass that has not come to its builders, and has seen nothing to wait for. */
  predicate OnTrack(s: System) {
    && !s.at.Rest? && !InMain(s.at) && !InGate(s.at) && !InNode(s.at)
    && (s.at.CertGeneration? ==> s.at.finished)
    && (s.at.DropDelete? ==> s.at.found)
  }

  lemma SupportMoves(p: Platform, inst: Instance, s: System)
    requires NodesFit(p, inst, s.c) && Idle(p, inst, s.c) && 0 < StagePosition(p, inst, s)
    requires s.c.checkpoint.None? && !Building(s.at)
    ensures StagePosition(p, inst, System(s.c, Support(inst))) < StagePosition(p, inst, s)
  {
  }

  lemma DetectionGoesOn(p: Platform, inst: Instance, s: System)
    requires WellFormed(s.at) && InDetection(s.at) && s.at.inst == inst
    requires s.at.Detect? ==> s.at.ongoing == s.c.checkpoint.Some?
    ensures var t := CallDetection(p, s, true);
            t.c == s.c && (OnTrack(t) || (t.at == Support(inst) && s.c.checkpoint.None?))
  {
  }

  lemma DetectionTrack(p: Platform, inst: Instance, s: System)
    requires WellFormed(s.at) && InDetection(s.at) && s.at.inst == inst && NodesFit(p, inst, s.c)
    requires s.at.Detect? ==> s.at.ongoing == s.c.checkpoint.Some?
    requires Idle(p, inst, s.c) && 0 < StagePosition(p, inst, s)
    ensures var t := CallDetection(p, s, true);
            OnTrack(t) || (NodesFit(p, inst, t.c) && StagePosition(p, inst, t) < StagePosition(p, inst, s))
  {
    DetectionGoesOn(p, inst, s);
    if s.c.checkpoint.None? {
      SupportMoves(p, inst, s);
    }
  }

  lemma CreateMoves(p: Platform, inst: Instance, s: System)
    requires OnCourse(p, inst, s) && s.at.PersistCreate?
    ensures var t := CallPersist(p, s, true);
            NodesFit(p, inst, t.c) && StagePosition(p, inst, t) < StagePosition(p, inst, s)
  {
    SameNodesFit(p, inst, s.c, CallPersist(p, s, true).c);
    assert StagePosition(p, inst, s) == 9;
  }

  lemma PersistTrack(p: Platform, inst: Instance, s: System)
    requires OnCourse(p, inst, s) && InPersist(s.at) && 0 < StagePosition(p, inst, s)
    ensures var t := CallPersist(p, s, true);
            OnTrack(t) || (NodesFit(p, inst, t.c) && StagePosition(p, inst, t) < StagePosition(p, inst, s))
  {
    if s.at.PersistUpdate? {
      AdvanceMoves(p, inst, s);
    } else if s.at.PersistCreate? {
      CreateMoves(p, inst, s);
    }
  }

  lemma AdvanceLowers(p: Platform, inst: Instance, s: System, t: System)
    requires NodesFit(p, inst, s.c) && NodesFit(p, inst, t.c)
    requires s.at.PersistUpdate? && s.c.checkpoint.Some? && Rank(s.at.desired) == Rank(s.c.checkpoint.value) + 1
    requires s.at.desired == MainReady ==> IsNewestGeneration(s.c.sets[inst.main.name])
    requires t == System(s.c.(checkpoint := Some(s.at.desired)), AfterPersist(s.at.inst, s.at.desired))
    ensures StagePosition(p, inst, t) < StagePosition(p, inst, s)
  {
  }

  lemma AdvanceMoves(p: Platform, inst: Instance, s: System)
    requires OnCourse(p, inst, s) && s.at.PersistUpdate?
    ensures var t := CallPersist(p, s, true);
            NodesFit(p, inst, t.c) && StagePosition(p, inst, t) < StagePosition(p, inst, s)
  {
    var t := System(s.c.(checkpoint := Some(s.at.desired)), AfterPersist(s.at.inst, s.at.desired));
    assert CallPersist(p, s, true) == t;
    SameNodesFit(p, inst, s.c, t.c);
    AdvanceLowers(p, inst, s, t);
  }

  lemma HandlerTrack(p: Platform, inst: Instance, s: System)
    requires OnCourse(p, inst, s) && InHandler(s.at) && OnTrack(s) && Idle(p, inst, s.c)
    ensures var t := CallHandler(p, s, true);
            OnTrack(t) || (NodesFit(p, inst, t.c) && StagePosition(p, inst, t) < StagePosition(p, inst, s))
  {
    NoWorkIsSettled(s.c.sets[inst.main.name]);
    if s.at.DropDelete? {
      SameNodesFit(p, inst, s.c, CallHandler(p, s, true).c);
    }
  }

  /** Each step of such a pass moves something, or leaves it on its way. */
  lemma StepOnTrack(p: Platform, inst: Instance, s: System, a: Act)
    requires WriteSettles(p)
    requires OnCourse(p, inst, s) && Fair(a)
    requires OnTrack(s) && Idle(p, inst, s.c) && 0 < StagePosition(p, inst, s)
    ensures var t := Step(p, s, a);
            NodesFit(p, inst, t.c) && (OnTrack(t) || Remaining(p, inst, t) < Remaining(p, inst, s))
  {
    var t := Step(p, s, a);
    StepKeepsCourse(p, inst, s, a);
    StepNoHigher(p, inst, s, a);
    LevelOrLower(p, inst, s, t);
    if a.Op? {
      CallByGroup(p, s, true);
      if InDetection(s.at) {
        DetectionTrack(p, inst, s);
      } else if InPersist(s.at) {
        PersistTrack(p, inst, s);
      } else {
        HandlerTrack(p, inst, s);
      }
    }
  }

  lemma {:induction false} RunOnTrack(p: Platform, inst: Instance, s: System, acts: seq<Act>)
    requires WriteSettles(p)
    requires OnCourse(p, inst, s) && AllFair(acts)
    requires OnTrack(s) && Idle(p, inst, s.c) && 0 < StagePosition(p, inst, s)
    ensures var t := Run(p, s, acts);
            NodesFit(p, inst, t.c) && (OnTrack(t) || Remaining(p, inst, t) < Remaining(p, inst, s))
    decreases |acts|
  {
    if acts != [] {
      var t := Step(p, s, acts[0]);
      StepKeepsCourse(p, inst, s, acts[0]);
      StepNoHigher(p, inst, s, acts[0]);
      LevelOrLower(p, inst, s, t);
      StepOnTrack(p, inst, s, acts[0]);
      RunNoHigher(p, inst, t, acts[1..]);
      if Level(p, inst, s, t) {
        LevelIsEqual(p, inst, s, t);
        LevelIdle(p, inst, s, t);
        RunOnTrack(p, inst, t, acts[1..]);
      }
    }
  }

  /** A pass from one rest to the next, with anything fair falling between its calls. */
  ghost predicate IsPass(p: Platform, s: System, acts: seq<Act>)
    requires WellFormed(s.at)
  {
    s.at.Rest? && acts != [] && acts[0].Op? && Run(p, s, acts).at.Rest?
  }

  lemma PassHelps(p: Platform, inst: Instance, s: System, acts: seq<Act>)
    requires WriteSettles(p)
    requires OnCourse(p, inst, s) && AllFair(acts) && IsPass(p, s, acts)
    requires Idle(p, inst, s.c) && 0 < StagePosition(p, inst, s)
    ensures NodesFit(p, inst, Run(p, s, acts).c)
    ensures Remaining(p, inst, Run(p, s, acts)) < Remaining(p, inst, s)
  {
    var t := System(s.c, ReadOngoing(inst));
    assert Step(p, s, acts[0]) == t;
    StepKeepsCourse(p, inst, s, acts[0]);
    StepNoHigher(p, inst, s, acts[0]);
    LevelOrLower(p, inst, s, t);
    RunNoHigher(p, inst, t, acts[1..]);
    if Level(p, inst, s, t) {
      LevelIsEqual(p, inst, s, t);
      RunOnTrack(p, inst, t, acts[1..]);
    }
  }

  // ---- Fair rounds ----

  function NamesOf(inst: Instance): set<string> {
    SecondaryNames(inst) + {inst.main.name, ReplicaName(inst)}
  }

  ghost predicate HasPass(p: Platform, s: System, acts: seq<Act>)
    requires WellFormed(s.at)
  {
    exists a: seq<Act>, b: seq<Act>, d: seq<Act> :: acts == a + b + d && IsPass(p, Run(p, s, a), b)
  }

  /** Fair steps in any order and number, among them everything that can be waited for and one
      whole pass. */
  ghost predicate Round(p: Platform, inst: Instance, s: System, acts: seq<Act>)
    requires WellFormed(s.at)
  {
    && AllFair(acts)
    && (forall n | n in NamesOf(inst) ::
          && World(Observe(n)) in acts && World(PodDown(n)) in acts
          && World(PodUp(n)) in acts && World(Promote(n)) in acts)
    && World(Vanish(ReplicaName(inst))) in acts
    && HasPass(p, s, acts)
  }

  lemma {:induction false} SumIsZero(p: Platform, inst: Instance, c: Cluster, j: nat)
    requires NodesFit(p, inst, c) && j <= |inst.secondaries|
    ensures SecondariesLeft(p, inst, c, j) == 0 <==> forall i | 0 <= i < j :: SecondaryLeft(p, inst, c, i) == 0
  {
    if j > 0 {
      SumIsZero(p, inst, c, j - 1);
    }
  }

  lemma IdleWithoutPosition(p: Platform, inst: Instance, s: System)
    requires OnCourse(p, inst, s) && Idle(p, inst, s.c) && StagePosition(p, inst, s) == 0
    ensures Remaining(p, inst, s) == 0
  {
    forall i | 0 <= i < |inst.secondaries| ensures SecondaryLeft(p, inst, s.c, i) == 0 {
      assert SecondaryWork(p, inst, s.c, i) == 0 && UpToDate(p, inst.secondaries[i], s.c);
    }
    SumIsZero(p, inst, s.c, |inst.secondaries|);
  }

  lemma SplitFair(a: seq<Act>, b: seq<Act>, d: seq<Act>)
    requires AllFair(a + b + d)
    ensures AllFair(a) && AllFair(b) && AllFair(d)
  {
    var acts := a + b + d;
    assert forall i | 0 <= i < |a| :: a[i] == acts[i];
    assert forall i | 0 <= i < |b| :: b[i] == acts[|a| + i];
    assert forall i | 0 <= i < |d| :: d[i] == acts[|a| + |b| + i];
  }

  lemma PassInRunHelps(p: Platform, inst: Instance, s: System, acts: seq<Act>)
    requires WriteSettles(p)
    requires OnCourse(p, inst, s) && AllFair(acts) && HasPass(p, s, acts)
    requires Idle(p, inst, s.c) && 0 < StagePosition(p, inst, s)
    ensures NodesFit(p, inst, Run(p, s, acts).c)
    ensures Remaining(p, inst, Run(p, s, acts)) < Remaining(p, inst, s)
  {
    var a: seq<Act>, b: seq<Act>, d: seq<Act> :| acts == a + b + d && IsPass(p, Run(p, s, a), b);
    SplitFair(a, b, d);
    var t := Run(p, s, a);
    var u := Run(p, t, b);
    RunsCompose(p, s, a + b, d);
    RunsCompose(p, s, a, b);
    RunNoHigher(p, inst, s, a);
    RunNoHigher(p, inst, t, b);
    RunNoHigher(p, inst, u, d);
    if Level(p, inst, s, t) {
      LevelIsEqual(p, inst, s, t);
      LevelIdle(p, inst, s, t);
      PassHelps(p, inst, t, b);
    }
  }

  lemma RoundHelps(p: Platform, inst: Instance, s: System, acts: seq<Act>)
    requires WriteSettles(p)
    requires OnCourse(p, inst, s) && Round(p, inst, s, acts) && 0 < Remaining(p, inst, s)
    ensures OnCourse(p, inst, Run(p, s, acts))
    ensures Remaining(p, inst, Run(p, s, acts)) < Remaining(p, inst, s)
  {
    RunNoHigher(p, inst, s, acts);
    IdleOrWaits(p, inst, s.c);
    if n :| Waits(p, inst, s.c, n) {
      AwaitedIsInRound(p, inst, s, acts, n);
      AwaitedInRunHelps(p, inst, s, acts, n);
    } else {
      if StagePosition(p, inst, s) == 0 {
        IdleWithoutPosition(p, inst, s);
      }
      PassInRunHelps(p, inst, s, acts);
    }
  }

  lemma AwaitedIsInRound(p: Platform, inst: Instance, s: System, acts: seq<Act>, n: string)
    requires OnCourse(p, inst, s) && Round(p, inst, s, acts) && Waits(p, inst, s.c, n)
    ensures World(NextEvent(n, s.c.sets[n])) in acts
  {
    assert n in NamesOf(inst);
    if n in SecondaryNames(inst) {
      var i :| 0 <= i < |inst.secondaries| && inst.secondaries[i].name == n;
      assert NodeFits(p, SecondaryRole, inst.secondaries[i], s.c);
    }
  }

  ghost predicate Rounds(p: Platform, inst: Instance, s: System, rounds: seq<seq<Act>>)
    requires WellFormed(s.at)
    decreases |rounds|
  {
    rounds == [] || (Round(p, inst, s, rounds[0]) && Rounds(p, inst, Run(p, s, rounds[0]), rounds[1..]))
  }

  function Flatten(rounds: seq<seq<Act>>): (acts: seq<Act>) {
    if rounds == [] then [] else rounds[0] + Flatten(rounds[1..])
  }

  /** The upgrade is over: no checkpoint, no replica, and every node runs what the spec asks for. */
  predicate Over(p: Platform, inst: Instance, c: Cluster) {
    && NodesFit(p, inst, c)
    && c.checkpoint.None? && Absent(inst, c) && AllUpToDate(p, inst, c)
    && Settled(c.sets[inst.main.name])
    && forall i | 0 <= i < |inst.secondaries| ::
        inst.secondaries[i].name in c.sets && Settled(c.sets[inst.secondaries[i].name])
  }

  lemma ZeroParts(a: nat, k: nat, x: nat)
    requires a * k + x == 0 && 0 < k
    ensures a == 0 && x == 0
  {
    if 0 < a {
      Lexicographic(0, a, 0, 0, k);
    }
  }

  lemma NothingRemaining(p: Platform, inst: Instance, s: System)
    requires OnCourse(p, inst, s) && Remaining(p, inst, s) == 0
    ensures Over(p, inst, s.c)
  {
    ZeroParts(MainLeft(p, inst, s.c) * 13 + StagePosition(p, inst, s), Scale(inst), Minor(p, inst, s.c));
    NoWorkIsSettled(s.c.sets[inst.main.name]);
    SumIsZero(p, inst, s.c, |inst.secondaries|);
    SecondariesDone(p, inst, s.c);
  }

  lemma SecondariesDone(p: Platform, inst: Instance, c: Cluster)
    requires NodesFit(p, inst, c)
    requires forall i | 0 <= i < |inst.secondaries| :: SecondaryLeft(p, inst, c, i) == 0
    ensures forall i | 0 <= i < |inst.secondaries| ::
              inst.secondaries[i].name in c.sets && Settled(c.sets[inst.secondaries[i].name])
  {
    forall i | 0 <= i < |inst.secondaries|
      ensures inst.secondaries[i].name in c.sets && Settled(c.sets[inst.secondaries[i].name])
    {
      assert NodeFits(p, SecondaryRole, inst.secondaries[i], c);
      assert SecondaryLeft(p, inst, c, i) == 0;
      NoWorkIsSettled(c.sets[inst.secondaries[i].name]);
    }
  }

  /** After as many fair rounds as the measure says, an upgrade of any number of nodes is over,
      wherever it stood and however far each rollout had come. */
  lemma {:induction false} UpgradeEnds(p: Platform, inst: Instance, s: System, rounds: seq<seq<Act>>)
    requires WriteSettles(p)
    requires OnCourse(p, inst, s) && Rounds(p, inst, s, rounds)
    requires Remaining(p, inst, s) <= |rounds|
    ensures Over(p, inst, Run(p, s, Flatten(rounds)).c)
    ensures OnCourse(p, inst, Run(p, s, Flatten(rounds))) && Remaining(p, inst, Run(p, s, Flatten(rounds))) == 0
    decreases |rounds|
  {
    if rounds == [] {
      NothingRemaining(p, inst, s);
    } else {
      var t := Run(p, s, rounds[0]);
      RunNoHigher(p, inst, s, rounds[0]);
      if 0 < Remaining(p, inst, s) {
        RoundHelps(p, inst, s, rounds[0]);
      }
      UpgradeEnds(p, inst, t, rounds[1..]);
      RunsCompose(p, s, rounds[0], Flatten(rounds[1..]));
    }
  }

  /** Once over it stays over: no fair run starts another upgrade. */
  lemma StaysOver(p: Platform, inst: Instance, s: System, acts: seq<Act>)
    requires WriteSettles(p)
    requires OnCourse(p, inst, s) && Remaining(p, inst, s) == 0 && AllFair(acts)
    ensures Over(p, inst, Run(p, s, acts).c)
  {
    RunNoHigher(p, inst, s, acts);
    NothingRemaining(p, inst, Run(p, s, acts));
  }

  /** So a number of rounds is enough that grows with the number of nodes alone. */
  lemma EnoughRounds(p: Platform, inst: Instance, s: System)
    requires OnCourse(p, inst, s)
    ensures Remaining(p, inst, s) < 143 * Scale(inst)
  {
    var a := MainLeft(p, inst, s.c) * 13 + StagePosition(p, inst, s);
    Lexicographic(a, 143, Minor(p, inst, s.c), 0, Scale(inst));
  }
}
