/** The seven stages of a zero-downtime upgrade, in the order in which a checkpoint walks them. */
module Stages {

  datatype Stage =
    | UpdateInitiated
    | ReplicaCreated
    | ReplicaStarting
    | ReplicaReady
    | MainShuttingDown
    | MainReady
    | UpdateFinished

  function Rank(s: Stage): (r: nat)
    ensures r <= 6
  {
    match s
    case UpdateInitiated => 0
    case ReplicaCreated => 1
    case ReplicaStarting => 2
    case ReplicaReady => 3
    case MainShuttingDown => 4
    case MainReady => 5
    case UpdateFinished => 6
  }

  /** A checkpoint may be confirmed or moved to the very next stage, nothing else. */
  predicate CanChange(current: Stage, desired: Stage) {
    Rank(current) <= Rank(desired) <= Rank(current) + 1
  }

  function ToText(s: Stage): string {
    match s
    case ReplicaCreated => "replica-created"
    case ReplicaStarting => "replica-starting"
    case ReplicaReady => "replica-ready"
    case MainReady => "main-ready"
    case MainShuttingDown => "main-shutting-down"
    case UpdateFinished => "update-finished"
    case UpdateInitiated => "update-initiated"
  }

  /** Any text that names no stage reads as the first stage. */
  function FromText(text: string): Stage {
    if text == "replica-created" then ReplicaCreated
    else if text == "replica-starting" then ReplicaStarting
    else if text == "replica-ready" then ReplicaReady
    else if text == "main-ready" then MainReady
    else if text == "main-shutting-down" then MainShuttingDown
    else if text == "update-finished" then UpdateFinished
    else UpdateInitiated
  }

  lemma TextRoundTrip(s: Stage)
    ensures FromText(ToText(s)) == s
  {
  }

  /** The texts under which the stages are stored. */
  lemma StoredTexts()
    ensures (map s: Stage | s in {UpdateInitiated, ReplicaCreated, ReplicaStarting, ReplicaReady, MainShuttingDown,
                                  MainReady, UpdateFinished} :: ToText(s))
         == map[UpdateInitiated := "update-initiated", ReplicaCreated := "replica-created",
                ReplicaStarting := "replica-starting", ReplicaReady := "replica-ready",
                MainShuttingDown := "main-shutting-down", MainReady := "main-ready",
                UpdateFinished := "update-finished"]
  {
  }

  /** A text that was not stored by the operator starts the upgrade from its beginning. */
  lemma UnknownText(text: string)
    requires forall s: Stage :: ToText(s) != text
    ensures FromText(text) == UpdateInitiated
  {
    assert ToText(ReplicaCreated) != text && ToText(ReplicaStarting) != text && ToText(ReplicaReady) != text;
    assert ToText(MainShuttingDown) != text && ToText(MainReady) != text && ToText(UpdateFinished) != text;
  }

  /** The thirteen moves that are allowed. */
  lemma AllowedMoves(a: Stage, b: Stage)
    ensures CanChange(a, b) <==>
            || a == b
            || (a, b) in {(UpdateInitiated, ReplicaCreated), (ReplicaCreated, ReplicaStarting),
                          (ReplicaStarting, ReplicaReady), (ReplicaReady, MainShuttingDown),
                          (MainShuttingDown, MainReady), (MainReady, UpdateFinished)}
  {
  }
}
