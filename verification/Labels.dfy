/** The labels of the operator's objects and what its listings select. */
module Labels {

  type Labels = map<string, string>

  const NAME_KEY := "app.kubernetes.io/name"
  const COMPONENT_KEY := "app.kubernetes.io/component"
  const PART_KEY := "app.kubernetes.io/part-of"
  const NODE_KEY := "teamcity.jetbrains.com/node-name"
  const ROLE_KEY := "teamcity.jetbrains.com/role"

  function DefaultLabels(instanceName: string): Labels {
    map[NAME_KEY := instanceName, COMPONENT_KEY := "teamcity-server", PART_KEY := "teamcity"]
  }

  /** A listing with `selector` returns the objects whose labels satisfy this. */
  predicate Matches(selector: Labels, labels: Labels) {
    forall k | k in selector :: k in labels && labels[k] == selector[k]
  }

  function LabelsOf(instanceName: string, user: Labels): Labels {
    user + DefaultLabels(instanceName)
  }

  function CommonLabels(instanceName: string, role: string, user: Labels): Labels {
    LabelsOf(instanceName, user) + map[ROLE_KEY := role]
  }

  function StatefulSetLabels(instanceName: string, nodeName: string, role: string, user: Labels): Labels {
    CommonLabels(instanceName, role, user) + map[NODE_KEY := nodeName]
  }

  // ---- The loops ----

  /** `into` with the entries of `l` put on top, as far as their keys are not in `rest`. */
  ghost predicate Partly(into: Labels, l: Labels, rest: set<string>, merged: Labels) {
    && (forall k :: k in merged <==> k in into || (k in l && k !in rest))
    && (forall k | k in merged :: merged[k] == if k in l && k !in rest then l[k] else into[k])
  }

  lemma PutOne(into: Labels, l: Labels, rest: set<string>, merged: Labels, k: string)
    requires Partly(into, l, rest, merged) && rest <= l.Keys && k in rest
    ensures Partly(into, l, rest - {k}, merged[k := l[k]])
  {
  }

  lemma NothingLeft(into: Labels, l: Labels, merged: Labels)
    requires Partly(into, l, {}, merged)
    ensures merged == into + l
  {
    assert forall k | k in merged :: merged[k] == (into + l)[k];
  }

  /** Either of the two loops of mergeLabels. */
  method PutAll(into: Labels, l: Labels) returns (merged: Labels)
    ensures merged == into + l
  {
    merged := into;
    var rest := l.Keys;
    while rest != {}
      invariant rest <= l.Keys && Partly(into, l, rest, merged)
      decreases |rest|
    {
      var k :| k in rest;
      PutOne(into, l, rest, merged, k);
      merged := merged[k := l[k]];
      rest := rest - {k};
    }
    NothingLeft(into, l, merged);
  }

  /** `base` with those entries of `l` that it lacks, as far as their keys are not in `rest`. */
  ghost predicate PartlyFilled(base: Labels, l: Labels, rest: set<string>, labels: Labels) {
    && (forall k :: k in labels <==> k in base || (k in l && k !in rest))
    && (forall k | k in labels :: labels[k] == if k in base then base[k] else l[k])
  }

  lemma FillOne(base: Labels, l: Labels, rest: set<string>, labels: Labels, k: string)
    requires PartlyFilled(base, l, rest, labels) && rest <= l.Keys && k in rest
    ensures PartlyFilled(base, l, rest - {k}, if k in labels then labels else labels[k := l[k]])
  {
  }

  lemma NothingToFill(base: Labels, l: Labels, labels: Labels)
    requires PartlyFilled(base, l, {}, labels)
    ensures labels == l + base
  {
    assert forall k | k in labels :: labels[k] == (l + base)[k];
  }

  method GetLabels(instanceName: string, instanceLabels: Labels) returns (labels: Labels)
    ensures labels == LabelsOf(instanceName, instanceLabels)
  {
    labels := DefaultLabels(instanceName);
    ghost var base := labels;
    var rest := instanceLabels.Keys;
    while rest != {}
      invariant rest <= instanceLabels.Keys && PartlyFilled(base, instanceLabels, rest, labels)
      decreases |rest|
    {
      var k :| k in rest;
      FillOne(base, instanceLabels, rest, labels, k);
      if k !in labels {
        labels := labels[k := instanceLabels[k]];
      }
      rest := rest - {k};
    }
    NothingToFill(base, instanceLabels, labels);
  }

  method MergeLabels(l1: Labels, l2: Labels) returns (merged: Labels)
    ensures merged == l1 + l2
  {
    merged := PutAll(map[], l1);
    merged := PutAll(merged, l2);
  }

  method GetStatefulSetCommonLabels(instanceName: string, nodeRole: string, instanceLabels: Labels)
    returns (labels: Labels)
    ensures labels == CommonLabels(instanceName, nodeRole, instanceLabels)
  {
    var common := GetLabels(instanceName, instanceLabels);
    labels := MergeLabels(common, map[ROLE_KEY := nodeRole]);
  }

  method GetStatefulSetLabels(instanceName: string, nodeName: string, nodeRole: string, instanceLabels: Labels)
    returns (labels: Labels)
    ensures labels == StatefulSetLabels(instanceName, nodeName, nodeRole, instanceLabels)
  {
    var common := GetStatefulSetCommonLabels(instanceName, nodeRole, instanceLabels);
    labels := MergeLabels(common, map[NODE_KEY := nodeName]);
  }

  // ---- What a listing selects ----

  /** Instance labels that the operator lets through. */
  predicate Free(k: string) {
    k !in {NAME_KEY, COMPONENT_KEY, PART_KEY, ROLE_KEY}
  }

  /** The user gave no node name for all nodes, or by chance this one's. */
  predicate NodeNameAgrees(user: Labels, nodeName: string) {
    NODE_KEY in user ==> user[NODE_KEY] == nodeName
  }

  /** Whatever the current labels ask for was already there when the object was made. */
  predicate LabelsKept(now: Labels, before: Labels) {
    forall k | k in now && Free(k) && k != NODE_KEY :: k in before && before[k] == now[k]
  }

  lemma KeysDiffer()
    ensures NAME_KEY != NODE_KEY && COMPONENT_KEY != NODE_KEY && PART_KEY != NODE_KEY && ROLE_KEY != NODE_KEY
    ensures NAME_KEY != ROLE_KEY && COMPONENT_KEY != ROLE_KEY && PART_KEY != ROLE_KEY
    ensures NAME_KEY != COMPONENT_KEY && NAME_KEY != PART_KEY && COMPONENT_KEY != PART_KEY
  {
    assert |NAME_KEY| == 22 && |COMPONENT_KEY| == 27 && |PART_KEY| == 25 && |NODE_KEY| == 32 && |ROLE_KEY| == 27;
    assert COMPONENT_KEY[0] == 'a' && ROLE_KEY[0] == 't';
  }

  /** Each label by its key: five are the operator's, and any other one is the user's. */
  lemma LabelByKey(name: string, nodeName: string, role: string, user: Labels, k: string)
    ensures var labels := StatefulSetLabels(name, nodeName, role, user);
            if k == "app.kubernetes.io/name" then k in labels && labels[k] == name
            else if k == "app.kubernetes.io/component" then k in labels && labels[k] == "teamcity-server"
            else if k == "app.kubernetes.io/part-of" then k in labels && labels[k] == "teamcity"
            else if k == "teamcity.jetbrains.com/role" then k in labels && labels[k] == role
            else if k == "teamcity.jetbrains.com/node-name" then k in labels && labels[k] == nodeName
            else (k in labels <==> k in user) && (k in labels ==> labels[k] == user[k])
  {
    KeysDiffer();
  }

  /** The selector of a role asks for the same, except that it leaves the node name to the user. */
  lemma SelectorByKey(name: string, role: string, user: Labels, k: string)
    ensures var selector, labels := CommonLabels(name, role, user), StatefulSetLabels(name, "", role, user);
            if k == "teamcity.jetbrains.com/node-name"
            then (k in selector <==> k in user) && (k in selector ==> selector[k] == user[k])
            else (k in selector <==> k in labels) && (k in selector ==> selector[k] == labels[k])
  {
    KeysDiffer();
  }

  lemma SelectorEntries(name: string, role: string, user: Labels, nodeName: string, r: string, before: Labels)
    requires Matches(CommonLabels(name, role, user), StatefulSetLabels(name, nodeName, r, before))
    ensures role == r && NodeNameAgrees(user, nodeName) && LabelsKept(user, before)
  {
    KeysDiffer();
    var selector, labels := CommonLabels(name, role, user), StatefulSetLabels(name, nodeName, r, before);
    assert ROLE_KEY in selector;
    forall k | k in user && Free(k) && k != NODE_KEY ensures k in before && before[k] == user[k] {
      assert k in selector && selector[k] == user[k];
    }
    if NODE_KEY in user {
      assert NODE_KEY in selector && selector[NODE_KEY] == user[NODE_KEY];
    }
  }

  /** The listing of the secondaries returns a StatefulSet that the operator made for a node in
      role `r`, under the instance labels `before`, exactly if it was made as a secondary, if the
      instance labels do not name another node, and if none was added or changed since then. */
  lemma SelectorSeparatesRoles(name: string, user: Labels, nodeName: string, r: string, before: Labels)
    ensures Matches(CommonLabels(name, "secondary", user), StatefulSetLabels(name, nodeName, r, before)) <==>
            r == "secondary" && NodeNameAgrees(user, nodeName) && LabelsKept(user, before)
  {
    KeysDiffer();
    var selector, labels := CommonLabels(name, "secondary", user), StatefulSetLabels(name, nodeName, r, before);
    if Matches(selector, labels) {
      SelectorEntries(name, "secondary", user, nodeName, r, before);
    }
    if r == "secondary" && NodeNameAgrees(user, nodeName) && LabelsKept(user, before) {
      forall k | k in selector ensures k in labels && labels[k] == selector[k] {
        if k == NODE_KEY {
        } else if Free(k) {
          assert k in user && selector[k] == user[k];
        }
      }
    }
  }

  /** So an upgrade never loses its main node or its replica to the deletion of obsolete secondaries. */
  lemma MainAndReplicaAreNeverObsolete(name: string, user: Labels, nodeName: string, before: Labels)
    ensures !Matches(CommonLabels(name, "secondary", user), StatefulSetLabels(name, nodeName, "main", before))
    ensures !Matches(CommonLabels(name, "secondary", user), StatefulSetLabels(name, nodeName, "update-with-ro", before))
  {
    assert "main"[0] != "secondary"[0] && "update-with-ro"[0] != "secondary"[0];
    SelectorSeparatesRoles(name, user, nodeName, "main", before);
    SelectorSeparatesRoles(name, user, nodeName, "update-with-ro", before);
  }

  /** Objects of two instances are never mixed up. */
  lemma SelectorSeparatesInstances(a: string, b: string, ua: Labels, ub: Labels, role: string, nodeName: string,
                                   r: string)
    requires a != b
    ensures !Matches(LabelsOf(a, ua), LabelsOf(b, ub))
    ensures !Matches(CommonLabels(a, role, ua), StatefulSetLabels(b, nodeName, r, ub))
  {
    KeysDiffer();
    assert NAME_KEY in LabelsOf(a, ua) && LabelsOf(a, ua)[NAME_KEY] == a;
    assert LabelsOf(b, ub)[NAME_KEY] == b;
    assert CommonLabels(a, role, ua)[NAME_KEY] == a && StatefulSetLabels(b, nodeName, r, ub)[NAME_KEY] == b;
  }
}
