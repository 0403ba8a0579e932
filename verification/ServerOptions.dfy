/** The server options rendered from a map whose iteration order is not fixed. */
module ServerOptions {
  import opened Ordering

  // ---- Sorting ----

  predicate Ascending(s: seq<string>) {
    forall i, j | 0 <= i < j < |s| :: Leq(s[i], s[j])
  }

  predicate Distinct(s: seq<string>) {
    forall i, j | 0 <= i < j < |s| :: s[i] != s[j]
  }

  function Elements(s: seq<string>): set<string> {
    set x | x in s
  }

  /** The names of a set in order, least first. */
  function Listing(names: set<string>): (s: seq<string>)
    ensures forall x :: x in s <==> x in names
    ensures Distinct(s)
    decreases |names|
  {
    if names == {} then [] else [First(names)] + Listing(names - {First(names)})
  }

  lemma HeadIsLeast(s: seq<string>)
    requires s != [] && Ascending(s) && Distinct(s)
    ensures IsLeast(Elements(s), s[0]) && Elements(s[1..]) == Elements(s) - {s[0]}
  {
    LeqReflexive(s[0]);
    assert s == [s[0]] + s[1..];
  }

  /** There is only one way to list a set in order. */
  lemma {:induction false} ListingIsUnique(s: seq<string>)
    requires Ascending(s) && Distinct(s)
    ensures s == Listing(Elements(s))
    decreases |s|
  {
    if s != [] {
      HeadIsLeast(s);
      LeastIsUnique(Elements(s), s[0], First(Elements(s)));
      ListingIsUnique(s[1..]);
      assert s == [s[0]] + s[1..];
    }
  }

  function Insert(x: string, s: seq<string>): (r: seq<string>)
    ensures multiset(r) == multiset(s) + multiset{x}
  {
    if s == [] then [x]
    else if Leq(x, s[0]) then [x] + s
    else
      assert s == [s[0]] + s[1..];
      [s[0]] + Insert(x, s[1..])
  }

  lemma {:induction false} InsertKeepsOrder(x: string, s: seq<string>)
    requires Ascending(s)
    ensures Ascending(Insert(x, s))
  {
    if s != [] && Leq(x, s[0]) {
      forall j | 0 <= j < |s| ensures Leq(x, s[j]) {
        LeqReflexive(s[0]);
        assert Leq(s[0], s[j]) by {
          if j == 0 {}
        }
        LeqTransitive(x, s[0], s[j]);
      }
    } else if s != [] {
      InsertKeepsOrder(x, s[1..]);
      LeqTotal(x, s[0]);
      forall y | y in Insert(x, s[1..]) ensures Leq(s[0], y) {
        assert y in multiset(Insert(x, s[1..]));
      }
    }
  }

  /** `sort.Strings`. */
  function Sorted(s: seq<string>): (r: seq<string>)
    ensures multiset(r) == multiset(s)
  {
    if s == [] then []
    else
      assert s == [s[0]] + s[1..];
      Insert(s[0], Sorted(s[1..]))
  }

  lemma {:induction false} SortedAscends(s: seq<string>)
    ensures Ascending(Sorted(s))
  {
    if s != [] {
      SortedAscends(s[1..]);
      InsertKeepsOrder(s[0], Sorted(s[1..]));
    }
  }

  lemma OnceInDistinct(s: seq<string>, i: nat)
    requires Distinct(s) && i < |s|
    ensures multiset(s)[s[i]] == 1
  {
    assert s == s[..i] + [s[i]] + s[i + 1..];
    assert s[i] !in s[..i] && s[i] !in s[i + 1..];
  }

  lemma TwiceIfRepeated(s: seq<string>, i: nat, j: nat)
    requires i < j < |s| && s[i] == s[j]
    ensures multiset(s)[s[i]] >= 2
  {
    assert s == s[..j] + s[j..];
    assert s[i] in s[..j] && s[j] in s[j..];
  }

  lemma DistinctByCount(s: seq<string>)
    ensures Distinct(s) <==> forall x | x in s :: multiset(s)[x] == 1
  {
    if Distinct(s) {
      forall x | x in s ensures multiset(s)[x] == 1 {
        var i :| 0 <= i < |s| && s[i] == x;
        OnceInDistinct(s, i);
      }
    } else {
      var i, j :| 0 <= i < j < |s| && s[i] == s[j];
      TwiceIfRepeated(s, i, j);
    }
  }

  lemma SortedIsListing(s: seq<string>)
    requires Distinct(s)
    ensures Sorted(s) == Listing(Elements(s))
  {
    var r := Sorted(s);
    SortedAscends(s);
    DistinctByCount(s);
    forall x ensures x in r <==> x in s {
      assert x in multiset(r) <==> x in multiset(s);
    }
    DistinctByCount(r);
    ListingIsUnique(r);
    assert Elements(r) == Elements(s);
  }

  /** The keys come out of the map in any order and always go out in the same one. */
  method SortKeysAlphabeticallyInMap(input: map<string, string>) returns (s: seq<string>)
    ensures s == Listing(input.Keys)
  {
    s := [];
    var rest := input.Keys;
    while rest != {}
      invariant Distinct(s)
      invariant rest <= input.Keys
      invariant forall x :: x in s <==> x in input && x !in rest
      decreases |rest|
    {
      var k :| k in rest;
      s := s + [k];
      rest := rest - {k};
    }
    SortedIsListing(s);
    assert Elements(s) == input.Keys;
    s := Sorted(s);
  }

  // ---- Rendering ----

  function Option(key: string, value: string): string {
    " -D" + key + "=" + value
  }

  function RenderedAlong(keys: seq<string>, properties: map<string, string>): string
    requires forall k | k in keys :: k in properties
  {
    if keys == [] then "" else Option(keys[0], properties[keys[0]]) + RenderedAlong(keys[1..], properties)
  }

  function Rendered(properties: map<string, string>): string {
    RenderedAlong(Listing(properties.Keys), properties)
  }

  lemma {:induction false} RenderedSnoc(keys: seq<string>, key: string, properties: map<string, string>)
    requires key in properties && forall k | k in keys :: k in properties
    ensures RenderedAlong(keys + [key], properties) == RenderedAlong(keys, properties) + Option(key, properties[key])
  {
    if keys == [] {
      assert keys + [key] == [key];
    } else {
      assert (keys + [key])[1..] == keys[1..] + [key];
      RenderedSnoc(keys[1..], key, properties);
    }
  }

  method ConvertStartUpPropertiesToServerOptions(startupProperties: map<string, string>) returns (res: string)
    ensures res == Rendered(startupProperties)
  {
    var sortedKeys := SortKeysAlphabeticallyInMap(startupProperties);
    res := "";
    for i := 0 to |sortedKeys|
      invariant res == RenderedAlong(sortedKeys[..i], startupProperties)
    {
      var k := sortedKeys[i];
      RenderedSnoc(sortedKeys[..i], k, startupProperties);
      assert sortedKeys[..i + 1] == sortedKeys[..i] + [k];
      res := res + Option(k, startupProperties[k]);
    }
    assert sortedKeys[..|sortedKeys|] == sortedKeys;
  }

  // ---- Different properties are rendered differently ----

  /** A first part without `mark`, then nothing or `mark`, can be read off in one way only. */
  lemma {:induction false} SplitIsUnique(a: string, x: string, b: string, y: string, mark: char)
    requires mark !in a && mark !in b && a + x == b + y
    requires (x == "" || x[0] == mark) && (y == "" || y[0] == mark)
    ensures a == b && x == y
  {
    if a == "" || b == "" {
      assert a == "" ==> a + x == x;
      assert b == "" ==> b + y == y;
    } else {
      assert (a + x)[0] == a[0] && (b + y)[0] == b[0];
      assert (a + x)[1..] == a[1..] + x && (b + y)[1..] == b[1..] + y;
      SplitIsUnique(a[1..], x, b[1..], y, mark);
    }
  }

  predicate Plain(properties: map<string, string>) {
    forall k | k in properties :: '=' !in k && ' ' !in properties[k]
  }

  lemma OptionIsReadable(k: string, v: string, x: string, l: string, w: string, y: string)
    requires '=' !in k && '=' !in l && ' ' !in v && ' ' !in w
    requires (x == "" || x[0] == ' ') && (y == "" || y[0] == ' ')
    requires Option(k, v) + x == Option(l, w) + y
    ensures k == l && v == w && x == y
  {
    var u, z := "=" + v + x, "=" + w + y;
    assert Option(k, v) + x == " -D" + (k + u) && Option(l, w) + y == " -D" + (l + z);
    assert (" -D" + (k + u))[3..] == k + u && (" -D" + (l + z))[3..] == l + z;
    SplitIsUnique(k, u, l, z, '=');
    assert u[1..] == v + x && z[1..] == w + y;
    SplitIsUnique(v, x, w, y, ' ');
  }

  lemma {:induction false} RenderedIsReadable(ks: seq<string>, ps: map<string, string>, ls: seq<string>,
                                              qs: map<string, string>)
    requires (forall k | k in ks :: k in ps) && (forall k | k in ls :: k in qs)
    requires Plain(ps) && Plain(qs)
    requires RenderedAlong(ks, ps) == RenderedAlong(ls, qs)
    ensures ks == ls && forall k | k in ks :: ps[k] == qs[k]
  {
    if ks != [] && ls != [] {
      OptionIsReadable(ks[0], ps[ks[0]], RenderedAlong(ks[1..], ps), ls[0], qs[ls[0]], RenderedAlong(ls[1..], qs));
      RenderedIsReadable(ks[1..], ps, ls[1..], qs);
      assert ks == [ks[0]] + ks[1..] && ls == [ls[0]] + ls[1..];
    }
  }

  /** Properties without the separators in them are changed by an edit exactly when the rendered
      options are: no reordering triggers an upgrade, and no change is hidden. */
  lemma RenderedTellsProperties(ps: map<string, string>, qs: map<string, string>)
    requires Plain(ps) && Plain(qs)
    ensures Rendered(ps) == Rendered(qs) <==> ps == qs
  {
    if Rendered(ps) == Rendered(qs) {
      var ks, ls := Listing(ps.Keys), Listing(qs.Keys);
      RenderedIsReadable(ks, ps, ls, qs);
      assert forall k :: k in ps <==> k in ks;
      assert forall k :: k in qs <==> k in ls;
    }
  }

  /** With a separator in a value two different maps can be rendered alike. */
  lemma SeparatorHidesAChange()
    ensures Rendered(map["a" := "1 -Db=2"]) == Rendered(map["a" := "1", "b" := "2"])
  {
    var ps, qs := map["a" := "1 -Db=2"], map["a" := "1", "b" := "2"];
    ListingOfPair("a", "b");
    ListingIsUnique(["a"]);
    assert Elements(["a"]) == ps.Keys && {"a", "b"} == qs.Keys;
    RenderedSnoc(["a"], "b", qs);
    assert ["a"] + ["b"] == ["a", "b"];
    assert ["a"][1..] == [];
    assert Option("a", "1 -Db=2") == Option("a", "1") + Option("b", "2");
  }

  lemma ListingOfPair(a: string, b: string)
    requires Leq(a, b) && a != b
    ensures Listing({a, b}) == [a, b]
  {
    ListingIsUnique([a, b]);
    assert Elements([a, b]) == {a, b};
  }
}
