/** What a call that fails, or that does not find its object, comes to, and which calls write what. */
module Failures {
  import opened PodTree
  import opened PodTemplate
  import opened Stages
  import opened Cluster
  import opened Protocol
  import opened Ordering

  /** The errors that do not end the pass. */
  predicate Swallowed(at: Point) {
    || at.FinalOngoing? || at.ReadOngoing? || at.GateOngoing? || at.LastCheck?
    || at.Detect? || at.ReplicaLookup?
    || at.ReplicaMake? || at.PersistUpdate?
    || at.MainRecheck? || at.NodeRecheck?
    || at.GateGeneration? || at.GateRevision?
  }

  /** A failed call does nothing, and it fails the pass unless its error is swallowed. */
  lemma FailedCall(p: Platform, s: System)
    requires WellFormed(s.at) && !s.at.Rest?
    ensures Call(p, s, false).c == s.c
    ensures Call(p, s, false).at == Rest(Failed) <==> !Swallowed(s.at)
  {
  }

  /** Neither does a pass begin with an error, and without an object there is nothing to do. */
  lemma FirstCall(p: Platform, s: System)
    requires s.at.Rest?
    ensures Call(p, s, false) == System(s.c, Rest(Failed))
    ensures s.c.teamcity.None? ==> Call(p, s, true) == System(s.c, Rest(Finished))
  {
  }

  /** The cluster without the StatefulSet `n`. */
  function Lacking(c: Cluster, n: string): Cluster {
    c.(sets := c.sets - {n})
  }

  /** A swallowed error is taken for an answer: no checkpoint, a StatefulSet that is gone, a write that
      went well, or nothing to detect. */
  lemma SwallowedErrors(p: Platform, s: System)
    requires WellFormed(s.at) && Swallowed(s.at)
    ensures var t, inst := Call(p, s, false), s.at.inst;
            && (s.at.FinalOngoing? || s.at.ReadOngoing? || s.at.GateOngoing? || s.at.LastCheck? ==>
                  t.at == Call(p, System(s.c.(checkpoint := None), s.at), true).at)
            && (s.at.MainRecheck? || s.at.GateGeneration? || s.at.GateRevision? ==>
                  t.at == Call(p, System(Lacking(s.c, inst.main.name), s.at), true).at)
            && (s.at.NodeRecheck? ==>
                  t.at == Call(p, System(Lacking(s.c, NodeAt(inst, s.at.j).name), s.at), true).at)
            && (s.at.ReplicaMake? || (s.at.PersistUpdate? && s.c.checkpoint.Some?) ==> t.at == Call(p, s, true).at)
            && (s.at.Detect? || s.at.ReplicaLookup? ==> t.at == Support(inst))
  {
  }

  /** The handlers cannot do without the main node or the replica that they read, and what is to be
      deleted from a listing or after a read has to be there. */
  lemma MissingObject(p: Platform, s: System)
    requires WellFormed(s.at)
    requires || (s.at.ReplicaReadMain? && s.at.inst.main.name !in s.c.sets)
             || ((s.at.CertRevision? || s.at.CertGeneration?) && s.at.inst.main.name !in s.c.sets)
             || (s.at.ReplicaPoll? && s.at.inst.main.name + "-update-replica" !in s.c.sets)
             || ((s.at.DropDelete? || s.at.FinalDelete?) && (!s.at.found || s.c.checkpoint.None?))
             || (s.at.Prune? && First(s.at.rest) !in s.c.sets)
    ensures Call(p, s, true) == System(s.c, Rest(Failed))
  {
  }

  /** A StatefulSet that is gone by the time it would be deleted, or looked at again, is made anew. */
  lemma GoneMeanwhile(p: Platform, s: System)
    requires WellFormed(s.at)
    ensures (s.at.MainRemove? || s.at.MainRecheck?) && s.at.inst.main.name !in s.c.sets ==>
              Call(p, s, true) == System(s.c, MainWrite(s.at.inst))
    ensures (s.at.NodeRemove? || s.at.NodeRecheck?) && NodeAt(s.at.inst, s.at.j).name !in s.c.sets ==>
              Call(p, s, true) == System(s.c, NodeWrite(s.at.inst, s.at.j))
  {
  }

  /** A write that the API server refuses blocks the pass: the service name of a StatefulSet cannot be
      changed in place. */
  lemma RefusedWrite(p: Platform, s: System)
    requires WellFormed(s.at) && (s.at.MainWrite? || s.at.NodeWrite?)
    requires var node := if s.at.MainWrite? then s.at.inst.main else NodeAt(s.at.inst, s.at.j);
             && node.name in s.c.sets && node.serviceName != ""
             && s.c.sets[node.name].serviceName != node.serviceName
    ensures Call(p, s, true) == System(s.c, Rest(Blocked))
  {
  }

  // ---- Who writes what ----

  /** The supporting objects are written by their builder alone, and always to what the pass's copy asks. */
  lemma SupportIsWritten(p: Platform, s: System, ok: bool)
    requires WellFormed(s.at)
    ensures Call(p, s, ok).c.support == if s.at.Support? && ok then s.at.inst.support else s.c.support
  {
  }

  /** The TeamCity object goes with its finalizer, and is never written otherwise. */
  lemma SpecIsReleased(p: Platform, s: System, ok: bool)
    requires WellFormed(s.at)
    ensures Call(p, s, ok).c.teamcity == if s.at.FinalRelease? && ok then None else s.c.teamcity
  {
  }

  /** The checkpoint is made where there is none, moved where there is one, and dropped where it was found. */
  lemma CheckpointIsWritten(p: Platform, s: System, ok: bool)
    requires WellFormed(s.at)
    ensures Call(p, s, ok).c.checkpoint ==
            if ok && s.at.PersistCreate? && s.c.checkpoint.None? then Some(s.at.desired)
            else if ok && s.at.PersistUpdate? && s.c.checkpoint.Some? then Some(s.at.desired)
            else if ok && (s.at.DropDelete? || s.at.FinalDelete?) && s.at.found then None
            else s.c.checkpoint
  {
  }

  /** StatefulSets are written or deleted at seven points. */
  lemma SetsAreWritten(p: Platform, s: System, ok: bool)
    requires WellFormed(s.at) && Call(p, s, ok).c.sets != s.c.sets
    ensures ok
    ensures || s.at.ReplicaMake? || s.at.ReplicaDelete? || s.at.MainRemove? || s.at.MainWrite?
            || s.at.Prune? || s.at.NodeRemove? || s.at.NodeWrite?
  {
  }
}
