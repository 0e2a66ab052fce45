/**
 * Python's ordering of `str` values (code point by code point, a proper
 * prefix first) and `sorted()` of a set of names under it.
 */
module StringOrder {

  /** `a < b` on Python strings. */
  predicate Less(a: string, b: string)
    decreases |a|
  {
    if a == [] then b != []
    else if b == [] then false
    else if a[0] != b[0] then a[0] < b[0]
    else Less(a[1..], b[1..])
  }

  lemma {:induction false} LessIrreflexive(a: string)
    ensures !Less(a, a)
    decreases |a|
  {
    if a != [] {
      LessIrreflexive(a[1..]);
    }
  }

  lemma {:induction false} LessAsymmetric(a: string, b: string)
    ensures Less(a, b) ==> !Less(b, a)
    decreases |a|
  {
    if a != [] && b != [] && a[0] == b[0] {
      LessAsymmetric(a[1..], b[1..]);
    }
  }

  lemma {:induction false} LessTransitive(a: string, b: string, c: string)
    requires Less(a, b) && Less(b, c)
    ensures Less(a, c)
    decreases |a|
  {
    if a != [] && a[0] == b[0] && b[0] == c[0] {
      LessTransitive(a[1..], b[1..], c[1..]);
    }
  }

  lemma {:induction false} LessTotal(a: string, b: string)
    ensures a == b || Less(a, b) || Less(b, a)
    decreases |a|
  {
    if a != [] && b != [] && a[0] == b[0] {
      LessTotal(a[1..], b[1..]);
      if a[1..] == b[1..] {
        assert a == [a[0]] + a[1..] && b == [b[0]] + b[1..];
      }
    }
  }

  /** A common prefix does not decide the order. */
  lemma {:induction false} LessCommonPrefix(p: string, a: string, b: string)
    ensures Less(p + a, p + b) <==> Less(a, b)
    decreases |p|
  {
    if p != [] {
      assert (p + a)[1..] == p[1..] + a;
      assert (p + b)[1..] == p[1..] + b;
      LessCommonPrefix(p[1..], a, b);
    } else {
      assert p + a == a && p + b == b;
    }
  }

  /** Between strings of equal length, what follows them does not change the order. */
  lemma {:induction false} LessExtend(a: string, b: string, x: string, y: string)
    requires |a| == |b| && Less(a, b)
    ensures Less(a + x, b + y)
    decreases |a|
  {
    if a[0] == b[0] {
      assert (a + x)[1..] == a[1..] + x;
      assert (b + y)[1..] == b[1..] + y;
      LessExtend(a[1..], b[1..], x, y);
    }
  }

  /** Strictly increasing, hence also free of duplicates. */
  predicate StrictlySorted(s: seq<string>) {
    forall i, j | 0 <= i < j < |s| :: Less(s[i], s[j])
  }

  predicate IsLeast(m: string, names: set<string>) {
    m in names && forall y | y in names && y != m :: Less(m, y)
  }

  lemma {:induction false} LeastExists(names: set<string>)
    requires names != {}
    ensures exists m :: IsLeast(m, names)
    decreases |names|
  {
    var x :| x in names;
    if names != {x} {
      var rest := names - {x};
      LeastExists(rest);
      var m :| IsLeast(m, rest);
      LessTotal(x, m);
      if Less(x, m) {
        forall y | y in names && y != x
          ensures Less(x, y)
        {
          if y != m {
            LessTransitive(x, m, y);
          }
        }
        assert IsLeast(x, names);
      } else {
        assert IsLeast(m, names);
      }
    } else {
      assert IsLeast(x, names);
    }
  }

  lemma LeastUnique(names: set<string>)
    ensures forall m1, m2 | IsLeast(m1, names) && IsLeast(m2, names) :: m1 == m2
  {
    forall m1, m2 | IsLeast(m1, names) && IsLeast(m2, names)
      ensures m1 == m2
    {
      if m1 != m2 {
        LessAsymmetric(m1, m2);
      }
    }
  }

  /** `sorted(names)`: every name once, in increasing order. */
  function Sorted(names: set<string>): (s: seq<string>)
    ensures StrictlySorted(s)
    ensures |s| == |names|
    ensures forall x :: x in s <==> x in names
    decreases |names|
  {
    if names == {} then []
    else
      LeastExists(names);
      LeastUnique(names);
      var m :| IsLeast(m, names);
      var rest := Sorted(names - {m});
      assert forall k | 0 <= k < |rest| :: rest[k] in names - {m};
      [m] + rest
  }
}
