/**
 The two Python built-ins the coordinator's spawn loop leans on: `sorted` over a
 set of strings (Python orders `str` lexicographically by code point, a proper
 prefix first) and `zip`, which pairs two lists positionally and stops at the
 shorter one.
 */
module Sorting {

  /** Python's `a <= b` on `str`. */
  predicate Below(a: string, b: string): (r: bool)
    ensures a <= b ==> r
  {
    if a == [] then true
    else if b == [] then false
    else a[0] < b[0] || (a[0] == b[0] && Below(a[1..], b[1..]))
  }

  lemma {:induction false} BelowReflexive(a: string)
    ensures Below(a, a)
  {
    if a != [] {
      BelowReflexive(a[1..]);
    }
  }

  lemma {:induction false} BelowTotal(a: string, b: string)
    ensures Below(a, b) || Below(b, a)
  {
    if a != [] && b != [] && a[0] == b[0] {
      BelowTotal(a[1..], b[1..]);
    }
  }

  lemma {:induction false} BelowAntisymmetric(a: string, b: string)
    requires Below(a, b) && Below(b, a)
    ensures a == b
  {
    if a != [] && b != [] {
      BelowAntisymmetric(a[1..], b[1..]);
      assert a == [a[0]] + a[1..];
      assert b == [b[0]] + b[1..];
    }
  }

  lemma {:induction false} BelowTransitive(a: string, b: string, c: string)
    requires Below(a, b) && Below(b, c)
    ensures Below(a, c)
  {
    if a != [] && b != [] && c != [] && a[0] == b[0] && b[0] == c[0] {
      BelowTransitive(a[1..], b[1..], c[1..]);
    }
  }

  /** Every non-empty finite set of strings has an element below all others. */
  lemma {:induction false} LeastExists(s: set<string>)
    requires s != {}
    ensures exists m :: m in s && forall x | x in s :: Below(m, x)
  {
    var y :| y in s;
    if s == {y} {
      BelowReflexive(y);
      assert forall x | x in s :: Below(y, x);
    } else {
      LeastExists(s - {y});
      var m :| m in s - {y} && forall x | x in s - {y} :: Below(m, x);
      BelowTotal(y, m);
      var least := if Below(y, m) then y else m;
      forall x | x in s ensures Below(least, x) {
        if x == least {
          BelowReflexive(x);
        } else if least == y {
          BelowTransitive(y, m, x);
        }
      }
      assert least in s;
    }
  }

  /** The least element of a non-empty set; unique because `Below` is antisymmetric. */
  function Least(s: set<string>): (m: string)
    requires s != {}
    ensures m in s
    ensures forall x | x in s :: Below(m, x)
  {
    LeastExists(s);
    assert forall a, b | a in s && b in s && Below(a, b) && Below(b, a) :: a == b by {
      forall a, b | a in s && b in s && Below(a, b) && Below(b, a) ensures a == b {
        BelowAntisymmetric(a, b);
      }
    }
    var m :| m in s && forall x | x in s :: Below(m, x);
    m
  }

  /** Strictly ascending: ordered by `Below`, and therefore free of repetitions. */
  ghost predicate Ascending(r: seq<string>)
  {
    forall i, j | 0 <= i < j < |r| :: Below(r[i], r[j]) && r[i] != r[j]
  }

  lemma AscendingCons(m: string, rest: seq<string>)
    requires Ascending(rest)
    requires forall i | 0 <= i < |rest| :: Below(m, rest[i]) && rest[i] != m
    ensures Ascending([m] + rest)
  {
    var r := [m] + rest;
    forall i, j | 0 <= i < j < |r| ensures Below(r[i], r[j]) && r[i] != r[j] {
      assert r[j] == rest[j - 1];
      if i > 0 {
        assert r[i] == rest[i - 1];
      }
    }
  }

  /** Python's `sorted(s)` for a set of strings. */
  function SortedOf(s: set<string>): (r: seq<string>)
    ensures |r| == |s|
    ensures forall x :: x in r <==> x in s
    ensures Ascending(r)
    decreases s
  {
    if s == {} then []
    else
      var m := Least(s);
      var rest := SortedOf(s - {m});
      AscendingCons(m, rest);
      [m] + rest
  }

  /** Two strictly ascending enumerations of equal length of the same strings are the same list,
      so `SortedOf` is the only sorted order there is. */
  lemma {:induction false} AscendingUnique(r1: seq<string>, r2: seq<string>)
    requires Ascending(r1) && Ascending(r2)
    requires |r1| == |r2|
    requires forall x :: x in r1 <==> x in r2
    ensures r1 == r2
  {
    if r1 != [] {
      assert r1[0] in r2;
      var a, b := r1[0], r2[0];
      assert b in r1;
      assert a == b by {
        var i :| 0 <= i < |r1| && r1[i] == b;
        var j :| 0 <= j < |r2| && r2[j] == a;
        if i != 0 && j != 0 {
          BelowAntisymmetric(a, b);
        }
      }
      forall x ensures x in r1[1..] <==> x in r2[1..] {
        if x in r1[1..] {
          var i :| 1 <= i < |r1| && r1[i] == x;
          assert x in r2;
        }
        if x in r2[1..] {
          var j :| 1 <= j < |r2| && r2[j] == x;
          assert x in r1;
        }
      }
      AscendingUnique(r1[1..], r2[1..]);
      assert r1 == [r1[0]] + r1[1..];
      assert r2 == [r2[0]] + r2[1..];
    }
  }

  /** Python's `zip(xs, ys)`: positional pairs, as many as the shorter list has. */
  function Zip<A, B>(xs: seq<A>, ys: seq<B>): (r: seq<(A, B)>)
    ensures |r| == if |xs| < |ys| then |xs| else |ys|
    ensures forall i | 0 <= i < |r| :: r[i] == (xs[i], ys[i])
  {
    seq(if |xs| < |ys| then |xs| else |ys|, i requires 0 <= i < |xs| && i < |ys| => (xs[i], ys[i]))
  }
}
