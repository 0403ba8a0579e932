/** Kubernetes object fragments as trees, and the one-sided comparison that the change detector uses. */
module PodTree {

  /** `Number` stands for every scalar that is compared exactly: integers, booleans and quantities. */
  datatype Tree =
    | Text(text: string)
    | Number(value: int)
    | Nil
    | Ref(to: Tree)
    | Slice(items: seq<Tree>)
    | Dict(entries: map<string, Tree>)
    | Struct(fields: seq<Tree>)

  /** `DeepDerivative(d, e)`: whatever `d` leaves unset is ignored, slices compare as prefixes and
      maps as sub-maps. Numbers are never "unset": a zero on the left is compared. */
  predicate Derives(d: Tree, e: Tree) {
    match d
    case Text(text) => e.Text? && (text == "" || text == e.text)
    case Number(_) => d == e
    case Nil => e.Nil? || e.Ref?
    case Ref(to) => e.Ref? && Derives(to, e.to)
    case Slice(items) =>
      && e.Slice?
      && |items| <= |e.items|
      && forall i | 0 <= i < |items| :: Derives(items[i], e.items[i])
    case Dict(entries) =>
      && e.Dict?
      && forall k | k in entries :: k in e.entries && Derives(entries[k], e.entries[k])
    case Struct(fields) =>
      && e.Struct?
      && |fields| == |e.fields|
      && forall i | 0 <= i < |fields| :: Derives(fields[i], e.fields[i])
  }

  datatype Hop = Deref | Index(at: nat) | Key(key: string) | Field(number: nat)

  datatype Option<+T> = None | Some(value: T)

  function Child(t: Tree, hop: Hop): Option<Tree> {
    match hop
    case Deref => if t.Ref? then Some(t.to) else None
    case Index(i) => if t.Slice? && i < |t.items| then Some(t.items[i]) else None
    case Key(k) => if t.Dict? && k in t.entries then Some(t.entries[k]) else None
    case Field(i) => if t.Struct? && i < |t.fields| then Some(t.fields[i]) else None
  }

  function At(t: Tree, path: seq<Hop>): Option<Tree> {
    if path == [] then Some(t)
    else
      var c := Child(t, path[0]);
      if c.None? then None else At(c.value, path[1..])
  }

  /** The two nodes agree as far as their own heads go; nothing is said about their children. */
  predicate SameHead(d: Tree, e: Tree) {
    match d
    case Text(_) => d == e
    case Number(_) => d == e
    case Nil => e.Nil?
    case Ref(_) => e.Ref?
    case Slice(items) => e.Slice? && |items| == |e.items|
    case Dict(entries) => e.Dict? && entries.Keys == e.entries.Keys
    case Struct(fields) => e.Struct? && |fields| == |e.fields|
  }

  /** The head of `e` carries something that `d` does not ask for: a value at an unset text or
      reference, a slice tail beyond the length of `d`, or map keys that `d` lacks. */
  predicate Unasked(d: Tree, e: Tree) {
    match d
    case Text(text) => text == "" && e.Text?
    case Number(_) => false
    case Nil => e.Ref?
    case Ref(_) => false
    case Slice(items) => e.Slice? && |items| < |e.items|
    case Dict(entries) => e.Dict? && entries.Keys <= e.entries.Keys
    case Struct(_) => false
  }

  /** What the detector overlooks, location by location: every node of `d` exists in `e`, and
      where the heads differ, `e` only has more. */
  ghost predicate OnlyUnasked(d: Tree, e: Tree) {
    forall path | At(d, path).Some? ::
      && At(e, path).Some?
      && (SameHead(At(d, path).value, At(e, path).value) || Unasked(At(d, path).value, At(e, path).value))
  }

  lemma AtHop(t: Tree, hop: Hop, rest: seq<Hop>)
    ensures At(t, [hop] + rest) == (if Child(t, hop).None? then None else At(Child(t, hop).value, rest))
  {
    assert ([hop] + rest)[1..] == rest;
  }

  /** Being free of asked-for differences passes to every child of `d`. */
  lemma OnlyUnaskedChild(d: Tree, e: Tree, hop: Hop)
    requires OnlyUnasked(d, e) && Child(d, hop).Some?
    ensures Child(e, hop).Some? && OnlyUnasked(Child(d, hop).value, Child(e, hop).value)
  {
    AtHop(d, hop, []);
    AtHop(e, hop, []);
    assert At(d, [hop] + []).Some?;
    forall path | At(Child(d, hop).value, path).Some?
      ensures var x, y := At(Child(d, hop).value, path), At(Child(e, hop).value, path);
              y.Some? && (SameHead(x.value, y.value) || Unasked(x.value, y.value))
    {
      AtHop(d, hop, path);
      AtHop(e, hop, path);
      assert At(d, [hop] + path).Some?;
    }
  }

  lemma {:induction false} DerivesAtPath(d: Tree, e: Tree, path: seq<Hop>)
    requires Derives(d, e) && At(d, path).Some?
    ensures At(e, path).Some?
    ensures SameHead(At(d, path).value, At(e, path).value) || Unasked(At(d, path).value, At(e, path).value)
    decreases |path|
  {
    if path != [] {
      DerivesAtPath(Child(d, path[0]).value, Child(e, path[0]).value, path[1..]);
    }
  }

  lemma {:induction false} OnlyUnaskedDerives(d: Tree, e: Tree)
    requires OnlyUnasked(d, e)
    ensures Derives(d, e)
    decreases d
  {
    assert At(d, []).Some?;
    match d
    case Text(_) =>
    case Number(_) =>
    case Nil =>
    case Ref(to) =>
      OnlyUnaskedChild(d, e, Deref);
      OnlyUnaskedDerives(to, e.to);
    case Slice(items) =>
      forall i | 0 <= i < |items| ensures Derives(items[i], e.items[i]) {
        OnlyUnaskedChild(d, e, Index(i));
        OnlyUnaskedDerives(items[i], e.items[i]);
      }
    case Dict(entries) =>
      forall k | k in entries ensures k in e.entries && Derives(entries[k], e.entries[k]) {
        OnlyUnaskedChild(d, e, Key(k));
        OnlyUnaskedDerives(entries[k], e.entries[k]);
      }
    case Struct(fields) =>
      forall i | 0 <= i < |fields| ensures Derives(fields[i], e.fields[i]) {
        OnlyUnaskedChild(d, e, Field(i));
        OnlyUnaskedDerives(fields[i], e.fields[i]);
      }
  }

  /** The comparison, which recurses over values, decides exactly a statement about locations. */
  lemma DerivesIffOnlyUnasked(d: Tree, e: Tree)
    ensures Derives(d, e) <==> OnlyUnasked(d, e)
  {
    if Derives(d, e) {
      forall path | At(d, path).Some?
        ensures At(e, path).Some?
        ensures SameHead(At(d, path).value, At(e, path).value) || Unasked(At(d, path).value, At(e, path).value)
      {
        DerivesAtPath(d, e, path);
      }
    }
    if OnlyUnasked(d, e) {
      OnlyUnaskedDerives(d, e);
    }
  }

  /** `s` is `w` after the API server completed it: unset texts, references, map keys and slice tails
      may be filled, and so may numbers that were left at zero. */
  predicate Completes(w: Tree, s: Tree) {
    match w
    case Text(text) => s.Text? && (text == "" || text == s.text)
    case Number(n) => s.Number? && (n == 0 || n == s.value)
    case Nil => s.Nil? || s.Ref?
    case Ref(to) => s.Ref? && Completes(to, s.to)
    case Slice(items) =>
      && s.Slice?
      && |items| <= |s.items|
      && forall i | 0 <= i < |items| :: Completes(items[i], s.items[i])
    case Dict(entries) =>
      && s.Dict?
      && forall k | k in entries :: k in s.entries && Completes(entries[k], s.entries[k])
    case Struct(fields) =>
      && s.Struct?
      && |fields| == |s.fields|
      && forall i | 0 <= i < |fields| :: Completes(fields[i], s.fields[i])
  }

  /** No number that `w` states was replaced on the way to `s`. */
  ghost predicate NumbersKept(w: Tree, s: Tree) {
    forall path | At(w, path).Some? && At(w, path).value.Number? :: At(s, path) == At(w, path)
  }

  lemma NumbersKeptChild(w: Tree, s: Tree, hop: Hop)
    requires NumbersKept(w, s) && Child(w, hop).Some? && Child(s, hop).Some?
    ensures NumbersKept(Child(w, hop).value, Child(s, hop).value)
  {
    forall path | At(Child(w, hop).value, path).Some? && At(Child(w, hop).value, path).value.Number?
      ensures At(Child(s, hop).value, path) == At(Child(w, hop).value, path)
    {
      AtHop(w, hop, path);
      AtHop(s, hop, path);
      assert At(w, [hop] + path).Some?;
    }
  }

  lemma {:induction false} CompletedDerives(w: Tree, s: Tree)
    requires Completes(w, s) && NumbersKept(w, s)
    ensures Derives(w, s)
    decreases w
  {
    match w
    case Text(_) =>
    case Number(_) => assert At(w, []).Some?;
    case Nil =>
    case Ref(to) =>
      NumbersKeptChild(w, s, Deref);
      CompletedDerives(to, s.to);
    case Slice(items) =>
      forall i | 0 <= i < |items| ensures Derives(items[i], s.items[i]) {
        NumbersKeptChild(w, s, Index(i));
        CompletedDerives(items[i], s.items[i]);
      }
    case Dict(entries) =>
      forall k | k in entries ensures k in s.entries && Derives(entries[k], s.entries[k]) {
        NumbersKeptChild(w, s, Key(k));
        CompletedDerives(entries[k], s.entries[k]);
      }
    case Struct(fields) =>
      forall i | 0 <= i < |fields| ensures Derives(fields[i], s.fields[i]) {
        NumbersKeptChild(w, s, Field(i));
        CompletedDerives(fields[i], s.fields[i]);
      }
  }

  /** After completion by the server the comparison is quiet exactly when no stated number was
      replaced: a zero that the server defaults keeps the detector firing for ever. */
  lemma CompletionIsQuietIffNumbersKept(w: Tree, s: Tree)
    requires Completes(w, s)
    ensures Derives(w, s) <==> NumbersKept(w, s)
  {
    if NumbersKept(w, s) {
      CompletedDerives(w, s);
    }
    if Derives(w, s) {
      forall path | At(w, path).Some? && At(w, path).value.Number?
        ensures At(s, path) == At(w, path)
      {
        DerivesAtPath(w, s, path);
      }
    }
  }

  lemma {:induction false} DerivesReflexive(t: Tree)
    ensures Derives(t, t)
    decreases t
  {
    match t
    case Text(_) =>
    case Number(_) =>
    case Nil =>
    case Ref(to) => DerivesReflexive(to);
    case Slice(items) => forall i | 0 <= i < |items| ensures Derives(items[i], items[i]) { DerivesReflexive(items[i]); }
    case Dict(entries) =>
      forall k | k in entries ensures Derives(entries[k], entries[k]) {
        DerivesReflexive(entries[k]);
      }
    case Struct(fields) =>
      forall i | 0 <= i < |fields| ensures Derives(fields[i], fields[i]) {
        DerivesReflexive(fields[i]);
      }
  }

  /** What the comparison overlooks at one location: `e` carries more than `d` asks for. */
  predicate Overlooked(d: Tree, e: Tree, path: seq<Hop>) {
    && At(d, path).Some? && At(e, path).Some?
    && Unasked(At(d, path).value, At(e, path).value)
    && !SameHead(At(d, path).value, At(e, path).value)
  }

  lemma OverlookedChild(d: Tree, e: Tree, hop: Hop, path: seq<Hop>)
    requires Child(d, hop).Some? && Child(e, hop).Some?
    ensures Overlooked(Child(d, hop).value, Child(e, hop).value, path) <==> Overlooked(d, e, [hop] + path)
  {
    AtHop(d, hop, path);
    AtHop(e, hop, path);
  }

  lemma NothingOverlookedBelow(d: Tree, e: Tree, hop: Hop)
    requires Child(d, hop).Some? && Child(e, hop).Some?
    requires forall path :: !Overlooked(d, e, path)
    ensures forall path :: !Overlooked(Child(d, hop).value, Child(e, hop).value, path)
  {
    forall path ensures !Overlooked(Child(d, hop).value, Child(e, hop).value, path) {
      OverlookedChild(d, e, hop, path);
    }
  }

  lemma {:induction false} NothingOverlookedIsEqual(d: Tree, e: Tree)
    requires Derives(d, e)
    requires forall path :: !Overlooked(d, e, path)
    ensures d == e
    decreases d
  {
    assert !Overlooked(d, e, []);
    match d
    case Text(_) =>
    case Number(_) =>
    case Nil =>
    case Ref(to) =>
      NothingOverlookedBelow(d, e, Deref);
      NothingOverlookedIsEqual(to, e.to);
    case Slice(items) =>
      forall i | 0 <= i < |items| ensures items[i] == e.items[i] {
        NothingOverlookedBelow(d, e, Index(i));
        NothingOverlookedIsEqual(items[i], e.items[i]);
      }
    case Dict(entries) =>
      forall k | k in entries ensures k in e.entries && entries[k] == e.entries[k] {
        NothingOverlookedBelow(d, e, Key(k));
        NothingOverlookedIsEqual(entries[k], e.entries[k]);
      }
    case Struct(fields) =>
      forall i | 0 <= i < |fields| ensures fields[i] == e.fields[i] {
        NothingOverlookedBelow(d, e, Field(i));
        NothingOverlookedIsEqual(fields[i], e.fields[i]);
      }
  }

  /** Where the comparison is quiet, two trees differ exactly if something is overlooked. */
  lemma QuietDifferenceIsOverlooked(d: Tree, e: Tree)
    requires Derives(d, e)
    ensures d != e <==> exists path :: Overlooked(d, e, path)
  {
    if forall path :: !Overlooked(d, e, path) {
      NothingOverlookedIsEqual(d, e);
    }
  }

  /** The zero value of the type of `t`. */
  function Zero(t: Tree): (z: Tree)
    decreases t
  {
    match t
    case Text(_) => Text("")
    case Number(_) => Number(0)
    case Nil => Nil
    case Ref(_) => Nil
    case Slice(_) => Slice([])
    case Dict(_) => Dict(map[])
    case Struct(fields) => Struct(seq(|fields|, i requires 0 <= i < |fields| => Zero(fields[i])))
  }

  /** Every tree completes the zero value of its type. */
  lemma {:induction false} ZeroIsCompleted(t: Tree)
    ensures Completes(Zero(t), t)
    decreases t
  {
    if t.Struct? {
      forall i | 0 <= i < |t.fields| ensures Completes(Zero(t.fields[i]), t.fields[i]) {
        ZeroIsCompleted(t.fields[i]);
      }
    }
  }
}
