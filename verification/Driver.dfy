/** One reconcile pass from start to end, against a script that says what the cluster does before
    each API call and whether the call succeeds. */
module Driver {
  import opened PodTree
  import opened PodTemplate
  import opened Stages
  import opened Cluster
  import opened Protocol

  datatype Turn = Turn(before: seq<Event>, ok: bool)

  type Script = seq<Turn>

  /** When the script has run out, nothing happens any more and calls succeed. */
  function Now(script: Script): Turn {
    if script == [] then Turn([], true) else script[0]
  }

  function Later(script: Script): Script {
    if script == [] then [] else script[1..]
  }

  /** What is left of the script after `n` calls. */
  function After(script: Script, n: nat): Script {
    if n == 0 then script else Later(After(script, n - 1))
  }

  /** What the script says about call number `k`, from 0. */
  function TurnAt(script: Script, k: nat): Turn {
    Now(After(script, k))
  }

  /** The cluster as call number `k` finds it, if the calls before it are all reads. */
  function Found(c: Cluster, script: Script, k: nat): Cluster {
    HappenAll(if k == 0 then c else Found(c, script, k - 1), TurnAt(script, k).before)
  }

  function Moved(s: System, turn: Turn): System {
    System(HappenAll(s.c, turn.before), s.at)
  }

  function Tick(p: Platform, s: System, turn: Turn): (t: System)
    requires WellFormed(s.at)
    ensures WellFormed(t.at)
  {
    Call(p, Moved(s, turn), turn.ok)
  }

  // ---- Every pass ends ----

  function Phase(at: Point): nat {
    match at
    case Rest(_) => 0
    case LastCheck(_) => 1
    case NodeHook(_, _) => 2
    case NodeRemove(_, _) => 2
    case NodeRecheck(_, _) => 2
    case NodeWrite(_, _) => 2
    case GateOngoing(_, _) => 3
    case GateRevision(_, _) => 4
    case GateGeneration(_) => 5
    case Prune(_, _) => 6
    case Obsolete(_) => 7
    case MainWrite(_) => 8
    case MainRecheck(_) => 9
    case MainRemove(_) => 10
    case MainHook(_) => 11
    case Support(_) => 12
    case PersistUpdate(_, _) => 13
    case PersistCreate(_, _) => 13
    case Persist(_, _) => 14
    case DropDelete(_, _) => 15
    case ReplicaDelete(_) => 15
    case CertGeneration(_, _) => 15
    case ReplicaMake(_, _) => 15
    case ReplicaReadMain(_) => 16
    case ReplicaPoll(_) => 16
    case CertRevision(_) => 16
    case ReplicaLookup(_) => 16
    case DropRead(_) => 16
    case ReadStage(_) => 17
    case Detect(_, _, _) => 18
    case ReadOngoing(_) => 19
    case FinalRelease(_) => 1
    case FinalDelete(_, _) => 2
    case FinalRead(_) => 3
    case FinalOngoing(_) => 4
  }

  /** What is left of a loop. */
  function Count(at: Point): nat
    requires WellFormed(at)
  {
    match at
    case Detect(inst, _, i) => |AllNodes(inst)| - i
    case Prune(_, rest) => |rest|
    case NodeHook(inst, j) => 4 * (|inst.secondaries| - j)
    case NodeRemove(inst, j) => 4 * (|inst.secondaries| - j) - 1
    case NodeRecheck(inst, j) => 4 * (|inst.secondaries| - j) - 2
    case NodeWrite(inst, j) => 4 * (|inst.secondaries| - j) - 3
    case _ => 0
  }

  predicate Descends(s: System, t: System)
    requires WellFormed(s.at) && WellFormed(t.at)
  {
    Phase(t.at) < Phase(s.at) || (Phase(t.at) == Phase(s.at) && Count(t.at) < Count(s.at))
  }

  lemma UpgradeCallDescends(p: Platform, s: System, ok: bool)
    requires WellFormed(s.at)
    ensures InDetection(s.at) ==> Descends(s, CallDetection(p, s, ok))
    ensures InHandler(s.at) ==> Descends(s, CallHandler(p, s, ok))
    ensures InPersist(s.at) ==> Descends(s, CallPersist(p, s, ok))
    ensures InFinalizer(s.at) ==> Descends(s, CallFinalizer(p, s, ok))
  {
  }

  lemma MainCallDescends(p: Platform, s: System, ok: bool)
    requires WellFormed(s.at) && InMain(s.at)
    ensures Descends(s, CallMain(p, s, ok))
  {
  }

  lemma GateCallDescends(p: Platform, s: System, ok: bool)
    requires WellFormed(s.at) && InGate(s.at)
    ensures Descends(s, CallGate(p, s, ok))
  {
  }

  lemma NodeCallDescends(p: Platform, s: System, ok: bool)
    requires WellFormed(s.at) && InNode(s.at)
    ensures Descends(s, CallNode(p, s, ok))
  {
  }

  lemma CallDescends(p: Platform, s: System, ok: bool)
    requires WellFormed(s.at) && !s.at.Rest?
    ensures Descends(s, Call(p, s, ok))
  {
    CallByGroup(p, s, ok);
    UpgradeCallDescends(p, s, ok);
    if InMain(s.at) {
      MainCallDescends(p, s, ok);
    } else if InGate(s.at) {
      GateCallDescends(p, s, ok);
    } else if InNode(s.at) {
      NodeCallDescends(p, s, ok);
    }
  }

  /** The state in which the pass ends that is at `s`, and what is left of the script. */
  function Finish(p: Platform, s: System, script: Script): (end: (System, Script))
    requires WellFormed(s.at)
    ensures end.0.at.Rest?
    decreases Phase(s.at), Count(s.at)
  {
    if s.at.Rest? then (s, script)
    else
      CallDescends(p, Moved(s, Now(script)), Now(script).ok);
      Finish(p, Tick(p, s, Now(script)), Later(script))
  }

  /** A pass begins with reading the TeamCity object. */
  function ScriptedPass(p: Platform, c: Cluster, script: Script): (System, Script) {
    Finish(p, Tick(p, System(c, Rest(Finished)), Now(script)), Later(script))
  }

  // ---- A pass is a run ----

  function Events(es: seq<Event>): (acts: seq<Act>)
    ensures |acts| == |es|
  {
    seq(|es|, i requires 0 <= i < |es| => World(es[i]))
  }

  lemma {:induction false} EventsAreSteps(p: Platform, s: System, es: seq<Event>)
    requires WellFormed(s.at)
    ensures Run(p, s, Events(es)) == System(HappenAll(s.c, es), s.at)
    decreases |es|
  {
    if es != [] {
      assert Events(es)[1..] == Events(es[1..]);
      EventsAreSteps(p, Step(p, s, World(es[0])), es[1..]);
    }
  }

  lemma TickIsRun(p: Platform, s: System, turn: Turn)
    requires WellFormed(s.at)
    ensures Run(p, s, Events(turn.before) + [Op(turn.ok)]) == Tick(p, s, turn)
  {
    var t := Moved(s, turn);
    EventsAreSteps(p, s, turn.before);
    RunsCompose(p, s, Events(turn.before), [Op(turn.ok)]);
    assert [Op(turn.ok)][1..] == [];
    assert Run(p, t, [Op(turn.ok)]) == Run(p, Step(p, t, Op(turn.ok)), []);
  }

  /** The steps that a pass takes: the theorems about runs hold of every state it goes through. */
  ghost function Taken(p: Platform, s: System, script: Script): seq<Act>
    requires WellFormed(s.at)
    decreases Phase(s.at), Count(s.at)
  {
    if s.at.Rest? then []
    else
      CallDescends(p, Moved(s, Now(script)), Now(script).ok);
      Events(Now(script).before) + [Op(Now(script).ok)] + Taken(p, Tick(p, s, Now(script)), Later(script))
  }

  lemma {:induction false} FinishIsRun(p: Platform, s: System, script: Script)
    requires WellFormed(s.at)
    ensures Run(p, s, Taken(p, s, script)) == Finish(p, s, script).0
    decreases Phase(s.at), Count(s.at)
  {
    if !s.at.Rest? {
      var turn := Now(script);
      var t := Tick(p, s, turn);
      CallDescends(p, Moved(s, turn), turn.ok);
      FinishIsRun(p, t, Later(script));
      TickIsRun(p, s, turn);
      RunsCompose(p, s, Events(turn.before) + [Op(turn.ok)], Taken(p, t, Later(script)));
    }
  }

  /** A whole pass is a run from a resting operator: what holds of all runs holds of any number of
      passes, with anything happening between and during them. */
  lemma PassIsRun(p: Platform, c: Cluster, script: Script)
    ensures var s := System(c, Rest(Finished));
            var first := Events(Now(script).before) + [Op(Now(script).ok)];
            Run(p, s, first + Taken(p, Tick(p, s, Now(script)), Later(script))) == ScriptedPass(p, c, script).0
  {
    var s, turn := System(c, Rest(Finished)), Now(script);
    TickIsRun(p, s, turn);
    FinishIsRun(p, Tick(p, s, turn), Later(script));
    RunsCompose(p, s, Events(turn.before) + [Op(turn.ok)], Taken(p, Tick(p, s, turn), Later(script)));
  }
}
