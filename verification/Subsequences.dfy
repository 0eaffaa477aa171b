/** Order-preserving subsequences: what a lossy, ordered channel may deliver. */
module Subsequences {

  /** `a` is `b` with some elements left out, the rest in the same order. */
  predicate Sub<T(==)>(a: seq<T>, b: seq<T>)
    decreases |b|
  {
    a == [] || (b != [] && ((a[0] == b[0] && Sub(a[1..], b[1..])) || Sub(a, b[1..])))
  }

  /** The elements of `s` that satisfy `keep`, in order. */
  function Filter<T>(s: seq<T>, keep: T -> bool): seq<T> {
    if s == [] then []
    else if keep(s[0]) then [s[0]] + Filter(s[1..], keep)
    else Filter(s[1..], keep)
  }

  predicate Distinct<T(==)>(s: seq<T>) {
    forall i, j :: 0 <= i < j < |s| ==> s[i] != s[j]
  }

  lemma {:induction false} SubReflexive<T>(a: seq<T>)
    ensures Sub(a, a)
  {
    if a != [] {
      SubReflexive(a[1..]);
    }
  }

  /** Two lossy hops in a row are one lossy hop. */
  lemma {:induction false} SubTransitive<T>(a: seq<T>, b: seq<T>, c: seq<T>)
    requires Sub(a, b) && Sub(b, c)
    ensures Sub(a, c)
    decreases |b| + |c|
  {
    if a == [] {
    } else if b[0] == c[0] && Sub(b[1..], c[1..]) {
      if a[0] == b[0] && Sub(a[1..], b[1..]) {
        SubTransitive(a[1..], b[1..], c[1..]);
      } else {
        SubTransitive(a, b[1..], c[1..]);
      }
    } else {
      SubTransitive(a, b, c[1..]);
    }
  }

  lemma {:induction false} SubConcat<T>(a: seq<T>, b: seq<T>, c: seq<T>, d: seq<T>)
    requires Sub(a, b) && Sub(c, d)
    ensures Sub(a + c, b + d)
    decreases |b|
  {
    if b == [] {
      assert a + c == c && b + d == d;
    } else {
      assert (b + d)[1..] == b[1..] + d;
      if a != [] && a[0] == b[0] && Sub(a[1..], b[1..]) {
        SubConcat(a[1..], b[1..], c, d);
        assert (a + c)[1..] == a[1..] + c;
      } else {
        SubConcat(a, b[1..], c, d);
      }
    }
  }

  /** What is delivered out of `b + c` splits into a part out of `b` and a part out of `c`. */
  lemma {:induction false} SubSplit<T>(a: seq<T>, b: seq<T>, c: seq<T>) returns (k: nat)
    requires Sub(a, b + c)
    ensures k <= |a| && Sub(a[..k], b) && Sub(a[k..], c)
    decreases |b|
  {
    if a == [] {
      k := 0;
    } else if b == [] {
      assert b + c == c;
      k := 0;
    } else {
      assert (b + c)[1..] == b[1..] + c;
      if a[0] == b[0] && Sub(a[1..], b[1..] + c) {
        k := SubSplit(a[1..], b[1..], c);
        assert a[1..][..k] == a[..k + 1][1..] && a[1..][k..] == a[k + 1..];
        k := k + 1;
      } else {
        k := SubSplit(a, b[1..], c);
      }
    }
  }

  lemma {:induction false} SubFilter<T>(a: seq<T>, b: seq<T>, keep: T -> bool)
    requires Sub(a, b)
    ensures Sub(Filter(a, keep), Filter(b, keep))
    decreases |b|
  {
    if a != [] {
      if a[0] == b[0] && Sub(a[1..], b[1..]) {
        SubFilter(a[1..], b[1..], keep);
        if keep(a[0]) {
          assert Filter(a, keep)[1..] == Filter(a[1..], keep);
          assert Filter(b, keep)[1..] == Filter(b[1..], keep);
        }
      } else {
        SubFilter(a, b[1..], keep);
        if keep(b[0]) {
          assert Filter(b, keep)[1..] == Filter(b[1..], keep);
        }
      }
    }
  }

  lemma {:induction false} SubPrefix<T>(a: seq<T>, b: seq<T>)
    requires a <= b
    ensures Sub(a, b)
  {
    if a != [] {
      SubPrefix(a[1..], b[1..]);
    }
  }

  lemma {:induction false} SubMember<T>(a: seq<T>, b: seq<T>, x: T)
    requires Sub(a, b) && x in a
    ensures x in b
    decreases |b|
  {
    if a[0] == b[0] && Sub(a[1..], b[1..]) {
      if x != a[0] {
        SubMember(a[1..], b[1..], x);
      }
    } else {
      SubMember(a, b[1..], x);
    }
  }

  lemma {:induction false} FilterConcat<T>(a: seq<T>, b: seq<T>, keep: T -> bool)
    ensures Filter(a + b, keep) == Filter(a, keep) + Filter(b, keep)
  {
    if a == [] {
      assert a + b == b;
    } else {
      assert (a + b)[1..] == a[1..] + b;
      FilterConcat(a[1..], b, keep);
    }
  }

  lemma {:induction false} FilterMember<T>(s: seq<T>, keep: T -> bool, x: T)
    ensures x in Filter(s, keep) <==> x in s && keep(x)
  {
    if s != [] {
      FilterMember(s[1..], keep, x);
    }
  }

  lemma DistinctConcat<T>(a: seq<T>, b: seq<T>)
    requires Distinct(a) && Distinct(b) && forall x, y :: x in a && y in b ==> x != y
    ensures Distinct(a + b)
  {
    var s := a + b;
    forall i, j | 0 <= i < j < |s|
      ensures s[i] != s[j]
    {
      if i < |a| <= j {
        assert s[i] == a[i] && s[j] == b[j - |a|] && a[i] in a && b[j - |a|] in b;
      }
    }
  }

  lemma {:induction false} SubLength<T>(a: seq<T>, b: seq<T>)
    requires Sub(a, b)
    ensures |a| <= |b|
    decreases |b|
  {
    if a != [] {
      if a[0] == b[0] && Sub(a[1..], b[1..]) {
        SubLength(a[1..], b[1..]);
      } else {
        SubLength(a, b[1..]);
      }
    }
  }

  /** A subsequence of distinct elements has distinct elements. */
  lemma {:induction false} SubDistinct<T>(a: seq<T>, b: seq<T>)
    requires Sub(a, b) && Distinct(b)
    ensures Distinct(a)
    decreases |b|
  {
    if a != [] {
      if a[0] == b[0] && Sub(a[1..], b[1..]) {
        SubDistinct(a[1..], b[1..]);
        forall j | 1 <= j < |a|
          ensures a[0] != a[j]
        {
          SubMember(a[1..], b[1..], a[1..][j - 1]);
        }
      } else {
        SubDistinct(a, b[1..]);
      }
    }
  }
}
