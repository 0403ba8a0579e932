/** The volume claims of an instance, as the representative of the builders that compare names. */
module Claims {
  import opened PodTree
  import opened Labels
  import opened ServerOptions

  datatype ClaimSpec = ClaimSpec(
    name: string,
    annotations: Labels,
    accessModes: seq<string>,
    selector: Tree,
    resources: Tree,
    volumeName: string,
    storageClass: Option<string>,
    volumeMode: Option<string>)

  datatype VolumeClaim = VolumeClaim(
    labels: Labels,
    annotations: Labels,
    accessModes: seq<string>,
    selector: Tree,
    resources: Tree,
    volumeName: string,
    storageClass: Option<string>,
    volumeMode: Option<string>)

  const EMPTY_CLAIM := VolumeClaim(map[], map[], [], Nil, Struct([]), "", None, None)

  type ClaimMap = map<string, VolumeClaim>

  // ---- Names ----

  predicate Named(specs: seq<ClaimSpec>, name: string) {
    exists i | 0 <= i < |specs| :: specs[i].name == name
  }

  /** Of claims with one name the first one counts. */
  function FirstIndex(specs: seq<ClaimSpec>, name: string): (i: int)
    ensures i == -1 <==> !Named(specs, name)
    ensures i != -1 ==> 0 <= i < |specs| && specs[i].name == name && forall k | 0 <= k < i :: specs[k].name != name
  {
    if specs == [] then -1
    else if specs[0].name == name then 0
    else
      var i := FirstIndex(specs[1..], name);
      assert forall k | 0 < k < |specs| :: specs[k] == specs[1..][k - 1];
      if i == -1 then -1 else i + 1
  }

  lemma FirstIndexIsUnique(specs: seq<ClaimSpec>, name: string, i: nat)
    requires i < |specs| && specs[i].name == name && forall k | 0 <= k < i :: specs[k].name != name
    ensures FirstIndex(specs, name) == i
  {
  }

  method GetPVCIndex(name: string, specs: seq<ClaimSpec>) returns (index: int)
    ensures index == FirstIndex(specs, name)
  {
    for i := 0 to |specs|
      invariant forall k | 0 <= k < i :: specs[k].name != name
    {
      if specs[i].name == name {
        FirstIndexIsUnique(specs, name, i);
        return i;
      }
    }
    return -1;
  }

  // ---- One claim ----

  /** The volume name is only taken over if the length of the stored one is negative; storage class
      and mode only if they are not set. */
  function Updated(labels: Labels, d: ClaimSpec, x: VolumeClaim): VolumeClaim {
    VolumeClaim(labels, d.annotations, d.accessModes, d.selector, d.resources, x.volumeName,
                if x.storageClass.None? then d.storageClass else x.storageClass,
                if x.volumeMode.None? then d.volumeMode else x.volumeMode)
  }

  // ---- What a pass leaves behind ----

  predicate IsObsolete(labels: Labels, specs: seq<ClaimSpec>, claims: ClaimMap, name: string) {
    name in claims && Matches(labels, claims[name].labels) && !Named(specs, name)
  }

  function Settle(labels: Labels, specs: seq<ClaimSpec>, claims: ClaimMap, name: string): VolumeClaim
    requires Named(specs, name)
  {
    Updated(labels, specs[FirstIndex(specs, name)], if name in claims then claims[name] else EMPTY_CLAIM)
  }

  function Names(specs: seq<ClaimSpec>): set<string> {
    set i | 0 <= i < |specs| :: specs[i].name
  }

  function Reconciled(labels: Labels, specs: seq<ClaimSpec>, claims: ClaimMap): ClaimMap {
    map name | name in claims.Keys + Names(specs) && !IsObsolete(labels, specs, claims, name) ::
      if Named(specs, name) then Settle(labels, specs, claims, name) else claims[name]
  }

  /** Exactly the claims of the spec carry the labels of the instance, and foreign claims stay. */
  lemma PassConverges(labels: Labels, specs: seq<ClaimSpec>, claims: ClaimMap)
    ensures var after := Reconciled(labels, specs, claims);
            && (set n | n in after && Matches(labels, after[n].labels)) == Names(specs)
            && forall n | n in claims && !Matches(labels, claims[n].labels) && n !in Names(specs) ::
                n in after && after[n] == claims[n]
  {
    var after := Reconciled(labels, specs, claims);
    forall n ensures (n in after && Matches(labels, after[n].labels)) <==> n in Names(specs) {
      assert n in Names(specs) <==> Named(specs, n);
    }
  }

  lemma SecondPassAt(labels: Labels, specs: seq<ClaimSpec>, claims: ClaimMap, n: string)
    ensures var once := Reconciled(labels, specs, claims);
            var twice := Reconciled(labels, specs, once);
            (n in once <==> n in twice) && (n in once ==> twice[n] == once[n])
  {
    var once := Reconciled(labels, specs, claims);
    assert n in Names(specs) <==> Named(specs, n);
    if Named(specs, n) {
      assert once[n] == Settle(labels, specs, claims, n);
    }
  }

  /** A second pass finds nothing to do, also when names occur twice in the spec. */
  lemma SecondPassIsNoOp(labels: Labels, specs: seq<ClaimSpec>, claims: ClaimMap)
    ensures Reconciled(labels, specs, Reconciled(labels, specs, claims)) == Reconciled(labels, specs, claims)
  {
    var once := Reconciled(labels, specs, claims);
    var twice := Reconciled(labels, specs, once);
    forall n ensures (n in once <==> n in twice) && (n in once ==> twice[n] == once[n]) {
      SecondPassAt(labels, specs, claims, n);
    }
  }

  function Unbound(d: ClaimSpec): ClaimSpec {
    d.(volumeName := "")
  }

  /** The two lists of claims agree in everything but their volume names. */
  predicate SameButVolumeNames(a: seq<ClaimSpec>, b: seq<ClaimSpec>) {
    |a| == |b| && forall i | 0 <= i < |a| :: Unbound(a[i]) == Unbound(b[i])
  }

  lemma SameFirstIndex(a: seq<ClaimSpec>, b: seq<ClaimSpec>, name: string)
    requires SameButVolumeNames(a, b)
    ensures FirstIndex(a, name) == FirstIndex(b, name)
  {
    forall i | 0 <= i < |a| ensures a[i].name == b[i].name {
      assert Unbound(a[i]).name == Unbound(b[i]).name;
    }
    if FirstIndex(a, name) != -1 {
      FirstIndexIsUnique(b, name, FirstIndex(a, name));
    }
  }

  lemma SameSettled(labels: Labels, a: seq<ClaimSpec>, b: seq<ClaimSpec>, claims: ClaimMap, name: string)
    requires SameButVolumeNames(a, b)
    ensures Named(a, name) <==> Named(b, name)
    ensures Named(a, name) ==> Settle(labels, a, claims, name) == Settle(labels, b, claims, name)
  {
    SameFirstIndex(a, b, name);
    if Named(a, name) {
      var i := FirstIndex(a, name);
      assert Unbound(a[i]) == Unbound(b[i]);
    }
  }

  lemma SameReconciledAt(labels: Labels, a: seq<ClaimSpec>, b: seq<ClaimSpec>, claims: ClaimMap, n: string)
    requires SameButVolumeNames(a, b)
    ensures var x, y := Reconciled(labels, a, claims), Reconciled(labels, b, claims);
            (n in x <==> n in y) && (n in x ==> x[n] == y[n])
  {
    SameSettled(labels, a, b, claims, n);
    assert (n in Names(a) <==> Named(a, n)) && (n in Names(b) <==> Named(b, n));
  }

  lemma SameMaps(x: ClaimMap, y: ClaimMap)
    requires forall n :: (n in x <==> n in y) && (n in x ==> x[n] == y[n])
    ensures x == y
  {
  }

  /** No edit of volume names has any effect: two specs that differ in nothing else leave the same
      claims behind, whatever was there before. */
  lemma VolumeNameIsIgnored(labels: Labels, a: seq<ClaimSpec>, b: seq<ClaimSpec>, claims: ClaimMap)
    requires SameButVolumeNames(a, b)
    ensures Reconciled(labels, a, claims) == Reconciled(labels, b, claims)
  {
    var x, y := Reconciled(labels, a, claims), Reconciled(labels, b, claims);
    forall n ensures (n in x <==> n in y) && (n in x ==> x[n] == y[n]) {
      SameReconciledAt(labels, a, b, claims, n);
    }
    SameMaps(x, y);
  }

  // ---- What a claim carries after a pass ----

  /** `x` follows the spec `d`, over what was stored before: what Kubernetes lets nobody change
      is kept once it is set. */
  predicate Follows(x: VolumeClaim, d: ClaimSpec, before: Option<VolumeClaim>) {
    && x.annotations == d.annotations
    && x.accessModes == d.accessModes
    && x.selector == d.selector
    && x.resources == d.resources
    && (before.Some? && before.value.storageClass.Some? ==> x.storageClass == before.value.storageClass)
    && (before.None? || before.value.storageClass.None? ==> x.storageClass == d.storageClass)
    && (before.Some? && before.value.volumeMode.Some? ==> x.volumeMode == before.value.volumeMode)
    && (before.None? || before.value.volumeMode.None? ==> x.volumeMode == d.volumeMode)
    && (before.Some? ==> x.volumeName == before.value.volumeName)
    && (before.None? ==> x.volumeName == "")
  }

  function Stored(claims: ClaimMap, n: string): Option<VolumeClaim> {
    if n in claims then Some(claims[n]) else None
  }

  /** The first spec of its name decides about each field of a claim. */
  predicate IsFirst(specs: seq<ClaimSpec>, i: nat) {
    i < |specs| && forall k | 0 <= k < i :: specs[k].name != specs[i].name
  }

  lemma SettledFollows(labels: Labels, specs: seq<ClaimSpec>, claims: ClaimMap, i: nat)
    requires IsFirst(specs, i)
    ensures var n := specs[i].name;
            && Named(specs, n)
            && Settle(labels, specs, claims, n).labels == labels
            && Follows(Settle(labels, specs, claims, n), specs[i], Stored(claims, n))
  {
    FirstIndexIsUnique(specs, specs[i].name, i);
  }

  /** After a pass every claim of the spec carries the labels of the instance and what the first spec
      of its name asks for; class, mode and volume are those that were stored, if any. */
  lemma ClaimsFollowSpec(labels: Labels, specs: seq<ClaimSpec>, claims: ClaimMap, i: nat)
    requires IsFirst(specs, i)
    ensures var after, n := Reconciled(labels, specs, claims), specs[i].name;
            n in after && after[n].labels == labels && Follows(after[n], specs[i], Stored(claims, n))
  {
    SettledFollows(labels, specs, claims, i);
    assert specs[i].name in Names(specs);
  }

  // ---- The builder ----

  /** The claims of `before` after those in `gone` were deleted. */
  function Without(claims: ClaimMap, gone: seq<string>): ClaimMap {
    map n | n in claims && n !in gone :: claims[n]
  }

  /** The updates have been made for the first `i` claims of the list. */
  ghost predicate Applied(labels: Labels, specs: seq<ClaimSpec>, before: ClaimMap, i: nat, claims: ClaimMap)
    requires i <= |specs|
  {
    && (forall n :: n in claims <==> n in before || Named(specs[..i], n))
    && (forall n | n in claims ::
          claims[n] == if Named(specs[..i], n) then Settle(labels, specs, before, n) else before[n])
  }

  lemma ApplyOne(labels: Labels, specs: seq<ClaimSpec>, before: ClaimMap, i: nat, claims: ClaimMap)
    requires i < |specs| && Applied(labels, specs, before, i, claims)
    ensures var name := specs[i].name;
            && Named(specs, name)
            && Applied(labels, specs, before, i + 1, claims[name := Settle(labels, specs, claims, name)])
  {
    var name := specs[i].name;
    assert specs[..i + 1] == specs[..i] + [specs[i]];
    forall n ensures Named(specs[..i + 1], n) <==> Named(specs[..i], n) || n == name {
      if Named(specs[..i], n) {
        var k :| 0 <= k < i && specs[..i][k].name == n;
        assert specs[..i + 1][k].name == n;
      }
      if n == name {
        assert specs[..i + 1][i].name == n;
      }
    }
    assert Settle(labels, specs, claims, name) == Settle(labels, specs, before, name);
  }

  lemma AppliedAt(labels: Labels, specs: seq<ClaimSpec>, before: ClaimMap, gone: seq<string>, claims: ClaimMap,
                  n: string)
    requires n in gone <==> IsObsolete(labels, specs, before, n)
    requires Applied(labels, specs, Without(before, gone), |specs|, claims)
    ensures n in claims <==> n in Reconciled(labels, specs, before)
    ensures n in claims ==> claims[n] == Reconciled(labels, specs, before)[n]
  {
    assert specs[..|specs|] == specs;
    assert n in Names(specs) <==> Named(specs, n);
  }

  lemma AllApplied(labels: Labels, specs: seq<ClaimSpec>, before: ClaimMap, gone: seq<string>, claims: ClaimMap)
    requires forall n :: n in gone <==> IsObsolete(labels, specs, before, n)
    requires Applied(labels, specs, Without(before, gone), |specs|, claims)
    ensures claims == Reconciled(labels, specs, before)
  {
    var goal := Reconciled(labels, specs, before);
    forall n ensures (n in claims <==> n in goal) && (n in claims ==> claims[n] == goal[n]) {
      AppliedAt(labels, specs, before, gone, claims, n);
    }
  }

  class PersistentVolumeClaimBuilder {
    const instanceName: string
    const instanceLabels: Labels
    const dataDir: ClaimSpec
    const others: seq<ClaimSpec>
    var claims: ClaimMap

    constructor (instanceName: string, instanceLabels: Labels, dataDir: ClaimSpec, others: seq<ClaimSpec>,
                 claims: ClaimMap)
      ensures this.instanceName == instanceName && this.instanceLabels == instanceLabels
      ensures Specs() == [dataDir] + others && this.claims == claims
    {
      this.instanceName, this.instanceLabels := instanceName, instanceLabels;
      this.dataDir, this.others := dataDir, others;
      this.claims := claims;
    }

    function Specs(): seq<ClaimSpec> {
      [dataDir] + others
    }

    function MyLabels(): Labels {
      LabelsOf(instanceName, instanceLabels)
    }

    method GetObsoleteObjects() returns (obsolete: seq<string>)
      ensures forall n :: n in obsolete <==> IsObsolete(MyLabels(), Specs(), claims, n)
    {
      var labels := GetLabels(instanceName, instanceLabels);
      var items := Listing(set n | n in claims && Matches(labels, claims[n].labels));
      obsolete := [];
      for i := 0 to |items|
        invariant forall n :: n in obsolete <==> n in items[..i] && !Named(Specs(), n)
      {
        var index := GetPVCIndex(items[i], Specs());
        if index == -1 {
          obsolete := obsolete + [items[i]];
        }
      }
      assert items[..|items|] == items;
    }

    method ReconcileDelete()
      modifies this`claims
      ensures exists gone: seq<string> ::
                && (forall n :: n in gone <==> IsObsolete(MyLabels(), Specs(), old(claims), n))
                && claims == Without(old(claims), gone)
    {
      var obsolete := GetObsoleteObjects();
      ghost var before := claims;
      for i := 0 to |obsolete|
        invariant claims == Without(before, obsolete[..i])
      {
        claims := claims - {obsolete[i]};
      }
      assert obsolete[..|obsolete|] == obsolete;
    }

    /** CreateOrUpdate of one object of the list, with Update as its mutation. */
    method CreateOrUpdate(name: string)
      requires Named(Specs(), name)
      modifies this`claims
      ensures claims == old(claims)[name := Settle(MyLabels(), Specs(), old(claims), name)]
      ensures claims[name].labels == LabelsOf(instanceName, instanceLabels)
      ensures forall i: nat | IsFirst([dataDir] + others, i) && ([dataDir] + others)[i].name == name ::
                Follows(claims[name], ([dataDir] + others)[i], Stored(old(claims), name))
    {
      forall i: nat | IsFirst(Specs(), i) && Specs()[i].name == name
        ensures Follows(Settle(MyLabels(), Specs(), claims, name), Specs()[i], Stored(claims, name))
      {
        SettledFollows(MyLabels(), Specs(), claims, i);
      }
      var index := GetPVCIndex(name, Specs());
      var labels := GetLabels(instanceName, instanceLabels);
      var existing := if name in claims then claims[name] else EMPTY_CLAIM;
      claims := claims[name := Updated(labels, Specs()[index], existing)];
    }

    /** One walk of the reconciler over this builder. */
    method Reconcile()
      modifies this`claims
      ensures claims == Reconciled(LabelsOf(instanceName, instanceLabels), [dataDir] + others, old(claims))
    {
      ReconcileDelete();
      ghost var gone: seq<string> :|
        && (forall n :: n in gone <==> IsObsolete(MyLabels(), Specs(), old(claims), n))
        && claims == Without(old(claims), gone);
      ghost var before := claims;
      for i := 0 to |Specs()|
        invariant Applied(MyLabels(), Specs(), before, i, claims)
      {
        assert Specs()[i].name == Specs()[i].name && Named(Specs(), Specs()[i].name);
        ApplyOne(MyLabels(), Specs(), before, i, claims);
        CreateOrUpdate(Specs()[i].name);
      }
      AllApplied(MyLabels(), Specs(), old(claims), gone, claims);
    }
  }
}
