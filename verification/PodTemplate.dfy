/** What the operator writes into a StatefulSet, what the API server adds, and what the change
    detector compares. */
module PodTemplate {
  import opened PodTree

  /** The spec of a StatefulSet, by who writes it. `rest` is what the operator never writes after
      creation: the selector, the labels, and every field that it does not know. The service name
      is kept beside the template, because it cannot be changed in place. */
  datatype Template = Template(
    replicas: Tree,
    annotations: Tree,
    volumes: Tree,
    initContainers: Tree,
    containers: Tree,
    nodeSelector: Tree,
    affinity: Tree,
    securityContext: Tree,
    serviceAccount: string,
    deprecatedAccount: string,
    rest: Tree)

  const REST: nat := 10

  function Spec(t: Template): Tree {
    Struct([t.replicas, t.annotations, t.volumes, t.initContainers, t.containers, t.nodeSelector, t.affinity,
            t.securityContext, Text(t.serviceAccount), Text(t.deprecatedAccount), t.rest])
  }

  /** The API server fills what a written field leaves open, field by field. */
  datatype Server = Server(fill: (nat, Tree) -> Tree)

  ghost predicate Lawful(server: Server) {
    && (forall f, t :: Completes(t, server.fill(f, t)))
    && (forall f, t :: server.fill(f, server.fill(f, t)) == server.fill(f, t))
  }

  /** The deprecated account name is a copy that the server keeps of the account name. */
  function Completed(server: Server, t: Template): Template {
    Template(server.fill(0, t.replicas), server.fill(1, t.annotations), server.fill(2, t.volumes),
             server.fill(3, t.initContainers), server.fill(4, t.containers), server.fill(5, t.nodeSelector),
             server.fill(6, t.affinity), server.fill(7, t.securityContext), t.serviceAccount,
             if t.deprecatedAccount == "" then t.serviceAccount else t.deprecatedAccount,
             server.fill(REST, t.rest))
  }

  predicate Stored(server: Server, t: Template) {
    Completed(server, t) == t
  }

  /** ConfigureStatefulSet, ConfigureContainer and the new container list, on a StatefulSet that
      was read from the cluster: `d` is what they make of an empty one. */
  function Configured(d: Template, t: Template): Template {
    d.(rest := t.rest)
  }

  /** The effect of a write: what is configured is stored, and the server completes it. */
  function Write(server: Server, d: Template, t: Template): Template {
    Completed(server, Configured(d, t))
  }

  /** What the detector asks for: a configured StatefulSet in which everything else is zero. */
  function Asked(d: Template, t: Template): Tree {
    Spec(d.(rest := Zero(t.rest)))
  }

  predicate Detects(d: Template, t: Template) {
    !Derives(Asked(d, t), Spec(t))
  }

  // ---- Detector against writer ----

  /** Writing once more changes nothing. */
  lemma WriteTwice(server: Server, d: Template, t: Template)
    requires Lawful(server)
    ensures Write(server, d, Write(server, d, t)) == Write(server, d, t)
    ensures Stored(server, Write(server, d, t))
  {
  }

  lemma WriteCompletesAsked(server: Server, d: Template, t: Template)
    requires Lawful(server) && d.deprecatedAccount == ""
    ensures var s := Write(server, d, t); Completes(Asked(d, s), Spec(s))
  {
    ZeroIsCompleted(Write(server, d, t).rest);
  }

  /** Right after a write the detector is quiet exactly when no number that is asked for was
      replaced on the way: a zero that the server defaults, or a number outside the operator's
      reach that is not zero, makes it fire again and again. */
  lemma QuietAfterWrite(server: Server, d: Template, t: Template)
    requires Lawful(server) && d.deprecatedAccount == ""
    ensures var s := Write(server, d, t);
            !Detects(d, s) <==> NumbersKept(Asked(d, s), Spec(s))
  {
    var s := Write(server, d, t);
    WriteCompletesAsked(server, d, t);
    CompletionIsQuietIffNumbersKept(Asked(d, s), Spec(s));
  }

  /** A location in a field that the operator writes. */
  predicate Written(path: seq<Hop>) {
    path != [] && path[0].Field? && path[0].number < REST
  }

  predicate Missed(d: Template, t: Template, path: seq<Hop>) {
    Written(path) && Overlooked(Asked(d, t), Spec(t), path)
  }

  function FieldOf(t: Template, f: nat): Tree
    requires f <= REST
  {
    Spec(t).fields[f]
  }

  lemma MissedInField(d: Template, t: Template, f: nat)
    requires f < REST && Derives(FieldOf(d, f), FieldOf(t, f))
    requires FieldOf(d, f) != FieldOf(t, f)
    ensures exists path :: Missed(d, t, path)
  {
    QuietDifferenceIsOverlooked(FieldOf(d, f), FieldOf(t, f));
    var path :| Overlooked(FieldOf(d, f), FieldOf(t, f), path);
    OverlookedChild(Asked(d, t), Spec(t), Field(f), path);
    assert Missed(d, t, [Field(f)] + path);
  }

  lemma MissedChanges(d: Template, t: Template, path: seq<Hop>)
    requires Missed(d, t, path)
    ensures Configured(d, t) != t
  {
    var f := path[0].number;
    assert path == [path[0]] + path[1..];
    OverlookedChild(Asked(d, t), Spec(t), path[0], path[1..]);
    assert Overlooked(FieldOf(d, f), FieldOf(t, f), path[1..]);
    assert FieldOf(d, f) == FieldOf(Configured(d, t), f);
  }

  lemma SameFields(d: Template, t: Template)
    requires forall f: nat | f < REST :: FieldOf(d, f) == FieldOf(t, f)
    ensures Configured(d, t) == t
  {
    assert FieldOf(d, 0) == FieldOf(t, 0) && FieldOf(d, 1) == FieldOf(t, 1) && FieldOf(d, 2) == FieldOf(t, 2);
    assert FieldOf(d, 3) == FieldOf(t, 3) && FieldOf(d, 4) == FieldOf(t, 4) && FieldOf(d, 5) == FieldOf(t, 5);
    assert FieldOf(d, 6) == FieldOf(t, 6) && FieldOf(d, 7) == FieldOf(t, 7) && FieldOf(d, 8) == FieldOf(t, 8);
    assert FieldOf(d, 9) == FieldOf(t, 9);
  }

  /** Where the detector is quiet, the writer changes the StatefulSet exactly if some location
      holds more than the spec asks for: a text or reference that the spec leaves unset, a map key
      that it drops, or list items beyond its own. */
  lemma DetectorGap(d: Template, t: Template)
    requires !Detects(d, t)
    ensures Configured(d, t) != t <==> exists path :: Missed(d, t, path)
  {
    if Configured(d, t) != t {
      if forall f: nat | f < REST :: FieldOf(d, f) == FieldOf(t, f) {
        SameFields(d, t);
      }
      var f: nat :| f < REST && FieldOf(d, f) != FieldOf(t, f);
      assert Derives(Asked(d, t).fields[f], Spec(t).fields[f]);
      MissedInField(d, t, f);
    }
    if path :| Missed(d, t, path) {
      MissedChanges(d, t, path);
    }
  }

  /** What the server stores differs only where that is so, or not at all. */
  lemma StoredGap(server: Server, d: Template, t: Template)
    requires Stored(server, t) && !Detects(d, t) && Write(server, d, t) != t
    ensures exists path :: Missed(d, t, path)
  {
    DetectorGap(d, t);
  }

  /** Emptying a map never starts an upgrade, and the writer empties it all the same. */
  lemma EmptiedMapIsMissed(d: Template, t: Template)
    requires t.nodeSelector.Dict? && t.nodeSelector.entries != map[]
    requires !Detects(d, t) && d.nodeSelector == t.nodeSelector
    ensures var e := d.(nodeSelector := Dict(map[])); !Detects(e, t) && Configured(e, t) != t
  {
    var e := d.(nodeSelector := Dict(map[]));
    forall i | 0 <= i <= REST ensures Derives(Asked(e, t).fields[i], Spec(t).fields[i]) {
      assert Derives(Asked(d, t).fields[i], Spec(t).fields[i]);
    }
  }
}
