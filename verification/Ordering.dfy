/** Strings in the order in which Go sorts them and in which the API server lists names. */
module Ordering {

  predicate Leq(a: string, b: string) {
    a == [] || (b != [] && (a[0] < b[0] || (a[0] == b[0] && Leq(a[1..], b[1..]))))
  }

  lemma {:induction false} LeqReflexive(a: string)
    ensures Leq(a, a)
  {
    if a != [] {
      LeqReflexive(a[1..]);
    }
  }

  lemma {:induction false} LeqTotal(a: string, b: string)
    ensures Leq(a, b) || Leq(b, a)
  {
    if a != [] && b != [] {
      LeqTotal(a[1..], b[1..]);
    }
  }

  lemma {:induction false} LeqAntisymmetric(a: string, b: string)
    requires Leq(a, b) && Leq(b, a)
    ensures a == b
  {
    if a != [] {
      LeqAntisymmetric(a[1..], b[1..]);
      assert a == [a[0]] + a[1..] && b == [b[0]] + b[1..];
    }
  }

  lemma {:induction false} LeqTransitive(a: string, b: string, c: string)
    requires Leq(a, b) && Leq(b, c)
    ensures Leq(a, c)
  {
    if a != [] && a[0] == b[0] == c[0] {
      LeqTransitive(a[1..], b[1..], c[1..]);
    }
  }

  predicate IsLeast(names: set<string>, name: string) {
    name in names && forall m | m in names :: Leq(name, m)
  }

  lemma {:induction false} LeastExists(names: set<string>)
    requires names != {}
    ensures exists name :: IsLeast(names, name)
    decreases |names|
  {
    var n :| n in names;
    LeqReflexive(n);
    if names - {n} == {} {
      assert names == {n};
      assert IsLeast(names, n);
    } else {
      LeastExists(names - {n});
      var m :| IsLeast(names - {n}, m);
      LeqTotal(n, m);
      if Leq(n, m) {
        forall k | k in names ensures Leq(n, k) {
          if k != n {
            LeqTransitive(n, m, k);
          }
        }
        assert IsLeast(names, n);
      } else {
        assert IsLeast(names, m);
      }
    }
  }

  lemma LeastIsUnique(names: set<string>, a: string, b: string)
    requires IsLeast(names, a) && IsLeast(names, b)
    ensures a == b
  {
    LeqAntisymmetric(a, b);
  }

  /** The first name of a listing. */
  function First(names: set<string>): (name: string)
    requires names != {}
    ensures IsLeast(names, name)
  {
    LeastExists(names);
    assert forall a, b | IsLeast(names, a) && IsLeast(names, b) :: a == b by {
      forall a, b | IsLeast(names, a) && IsLeast(names, b) ensures a == b {
        LeastIsUnique(names, a, b);
      }
    }
    var name :| IsLeast(names, name);
    name
  }
}
