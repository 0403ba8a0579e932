/** Obsolete secondaries as they are really found: by a listing with labels of the instance, which
    may have changed since the StatefulSets were made. */
module Listing {
  import opened PodTree
  import opened PodTemplate
  import opened Cluster
  import opened Protocol
  import opened Labels
  import opened Convergence

  function RoleText(role: Role): string {
    match role
    case MainRole => "main"
    case SecondaryRole => "secondary"
    case ReplicaRole => "update-with-ro"
  }

  /** The instance labels at the moment when each StatefulSet was made. */
  type Origins = map<string, Labels>

  predicate Covers(origins: Origins, c: Cluster) {
    c.sets.Keys <= origins.Keys
  }

  predicate Selected(c: Cluster, name: string, user: Labels, origins: Origins, n: string)
    requires Covers(origins, c) && n in c.sets
  {
    Matches(CommonLabels(name, "secondary", user), StatefulSetLabels(name, n, RoleText(c.sets[n].role), origins[n]))
  }

  /** What the listing returns and the spec no longer names. */
  function Listed(c: Cluster, inst: Instance, name: string, user: Labels, origins: Origins): set<string>
    requires Covers(origins, c)
  {
    set n | n in c.sets && Selected(c, name, user, origins, n) && n !in SecondaryNames(inst)
  }

  /** The instance labels name no other node for all, and none was added or changed since. */
  predicate Recognised(user: Labels, origins: Origins, n: string)
    requires n in origins
  {
    NodeNameAgrees(user, n) && LabelsKept(user, origins[n])
  }

  lemma SelectedByRole(c: Cluster, name: string, user: Labels, origins: Origins, n: string)
    requires Covers(origins, c) && n in c.sets
    ensures Selected(c, name, user, origins, n) <==> c.sets[n].role == SecondaryRole && Recognised(user, origins, n)
  {
    assert RoleText(MainRole)[0] == 'm' && RoleText(ReplicaRole)[0] == 'u' && RoleText(SecondaryRole)[0] == 's';
    SelectorSeparatesRoles(name, user, n, RoleText(c.sets[n].role), origins[n]);
  }

  /** The listing finds exactly the obsolete secondaries that it recognises: never a node of the
      spec, never the main node or the replica, but all the obsolete ones only if the instance
      labels were left alone. */
  lemma ListedAreObsolete(c: Cluster, inst: Instance, name: string, user: Labels, origins: Origins)
    requires Covers(origins, c)
    ensures Listed(c, inst, name, user, origins) == set n | n in ObsoleteNames(c, inst) && Recognised(user, origins, n)
    ensures Listed(c, inst, name, user, origins) == ObsoleteNames(c, inst) <==>
            forall n | n in ObsoleteNames(c, inst) :: Recognised(user, origins, n)
  {
    var listed, obsolete := Listed(c, inst, name, user, origins), ObsoleteNames(c, inst);
    forall n ensures n in listed <==> n in obsolete && Recognised(user, origins, n) {
      if n in c.sets {
        SelectedByRole(c, name, user, origins, n);
      }
    }
    var recognised := set n | n in obsolete && Recognised(user, origins, n);
    assert listed == recognised;
  }

  /** So the deletions of a pass send every secondary that the spec does not name on its way out,
      exactly if each one that is not leaving already is recognised. */
  lemma AllLeaveIffRecognised(c: Cluster, inst: Instance, name: string, user: Labels, origins: Origins)
    requires Covers(origins, c)
    ensures var d := Pruned(c, Listed(c, inst, name, user, origins));
            (forall n | n in d.sets && d.sets[n].role == SecondaryRole && n !in SecondaryNames(inst) ::
               d.sets[n].terminating)
            <==> (forall n | n in ObsoleteNames(c, inst) && !c.sets[n].terminating :: Recognised(user, origins, n))
  {
    ListedAreObsolete(c, inst, name, user, origins);
    var listed := Listed(c, inst, name, user, origins);
    var d := Pruned(c, listed);
    forall n | n in ObsoleteNames(c, inst)
      ensures n in d.sets && d.sets[n].role == SecondaryRole && n !in SecondaryNames(inst)
      ensures d.sets[n].terminating <==> c.sets[n].terminating || Recognised(user, origins, n)
    {
      assert n in listed <==> Recognised(user, origins, n);
    }
    assert forall n | n in d.sets && d.sets[n].role == SecondaryRole && n !in SecondaryNames(inst) ::
      n in ObsoleteNames(c, inst);
  }

  /** And a pass like those of `Convergence.TwoPasses` is one with this listing as long as every
      obsolete secondary is recognised. */
  lemma TidiedByListing(p: Platform, c: Cluster, inst: Instance, name: string, user: Labels, origins: Origins)
    requires Covers(origins, c) && forall n | n in ObsoleteNames(c, inst) :: Recognised(user, origins, n)
    ensures Tidied(p, inst, c) == AllPlaced(p, inst, Pruned(c, Listed(c, inst, name, user, origins)))
  {
    ListedAreObsolete(c, inst, name, user, origins);
  }
}
