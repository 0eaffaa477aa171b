/** Ordering and sorting of strings, as used to make every plan the same on every run. */
module Text {
  import opened Subsequences

  /** Three-way comparison of numbers. */
  function Compare(a: int, b: int): (r: int)
    ensures r == 0 <==> a == b
  {
    if a < b then -1 else if a > b then 1 else 0
  }

  /** Lexicographic three-way comparison. */
  function CompareText(a: string, b: string): (r: int)
    ensures -1 <= r <= 1
  {
    if a == [] then (if b == [] then 0 else -1)
    else if b == [] then 1
    else if a[0] < b[0] then -1
    else if a[0] > b[0] then 1
    else CompareText(a[1..], b[1..])
  }

  /** The first comparison that decides. */
  function Or(first: int, second: int): int {
    if first != 0 then first else second
  }

  lemma {:induction false} CompareTextZero(a: string, b: string)
    ensures CompareText(a, b) == 0 <==> a == b
  {
    if a != [] && b != [] && a[0] == b[0] {
      CompareTextZero(a[1..], b[1..]);
      assert a == [a[0]] + a[1..] && b == [b[0]] + b[1..];
    }
  }

  lemma {:induction false} CompareTextFlip(a: string, b: string)
    ensures CompareText(a, b) == -CompareText(b, a)
  {
    if a != [] && b != [] && a[0] == b[0] {
      CompareTextFlip(a[1..], b[1..]);
    }
  }

  lemma {:induction false} CompareTextTransitive(a: string, b: string, c: string)
    requires CompareText(a, b) <= 0 && CompareText(b, c) <= 0
    ensures CompareText(a, c) <= 0
    ensures CompareText(a, c) == 0 ==> CompareText(a, b) == 0 && CompareText(b, c) == 0
  {
    if a != [] && b != [] && c != [] && a[0] == b[0] && b[0] == c[0] {
      CompareTextTransitive(a[1..], b[1..], c[1..]);
    }
  }

  /** `a` comes before `b` in the dictionary: they agree up to some place, where `a` ends or has the lesser letter. */
  ghost predicate Precedes(a: string, b: string) {
    exists k: nat :: DiffersAt(a, b, k)
  }

  ghost predicate DiffersAt(a: string, b: string, k: nat) {
    k <= |a| && k < |b| && a[..k] == b[..k] && (k == |a| || a[k] < b[k])
  }

  /** The comparison is the dictionary's. */
  lemma {:induction false} ComparesTexts(a: string, b: string)
    ensures CompareText(a, b) < 0 <==> Precedes(a, b)
    decreases |a|
  {
    if a == [] {
      assert b != [] ==> DiffersAt(a, b, 0);
    } else if b != [] {
      if a[0] < b[0] {
        assert DiffersAt(a, b, 0);
      } else if a[0] == b[0] {
        ComparesTexts(a[1..], b[1..]);
        assert a == [a[0]] + a[1..] && b == [b[0]] + b[1..];
        if k: nat :| DiffersAt(a[1..], b[1..], k) {
          assert a[..k + 1] == [a[0]] + a[1..][..k] && b[..k + 1] == [b[0]] + b[1..][..k];
          assert DiffersAt(a, b, k + 1);
        }
        if k: nat :| DiffersAt(a, b, k) {
          assert k > 0;
          assert a[1..][..k - 1] == a[..k][1..] && b[1..][..k - 1] == b[..k][1..];
          assert DiffersAt(a[1..], b[1..], k - 1);
        }
      } else {
        forall k: nat
          ensures !DiffersAt(a, b, k)
        {
          assert 0 < k <= |a| && k <= |b| ==> a[..k][0] == a[0] && b[..k][0] == b[0];
        }
      }
    }
  }

  predicate Sorted(s: seq<string>) {
    forall i, j :: 0 <= i < j < |s| ==> CompareText(s[i], s[j]) <= 0
  }

  function Insert(x: string, s: seq<string>): seq<string> {
    if s == [] || CompareText(x, s[0]) <= 0 then [x] + s else [s[0]] + Insert(x, s[1..])
  }

  function Sort(s: seq<string>): seq<string> {
    if s == [] then [] else Insert(s[0], Sort(s[1..]))
  }

  lemma {:induction false} InsertKeeps(x: string, s: seq<string>)
    ensures multiset(Insert(x, s)) == multiset([x]) + multiset(s)
  {
    if s != [] && CompareText(x, s[0]) > 0 {
      InsertKeeps(x, s[1..]);
      assert s == [s[0]] + s[1..];
    }
  }

  lemma {:induction false} InsertSorted(x: string, s: seq<string>)
    requires Sorted(s)
    ensures Sorted(Insert(x, s))
  {
    if s == [] {
    } else if CompareText(x, s[0]) <= 0 {
      forall j | 0 <= j < |s|
        ensures CompareText(x, s[j]) <= 0
      {
        if j > 0 {
          CompareTextTransitive(x, s[0], s[j]);
        }
      }
    } else {
      InsertSorted(x, s[1..]);
      InsertKeeps(x, s[1..]);
      CompareTextFlip(x, s[0]);
      var t := Insert(x, s[1..]);
      forall j | 0 <= j < |t|
        ensures CompareText(s[0], t[j]) <= 0
      {
        assert t[j] in multiset(t);
        assert t[j] == x || t[j] in multiset(s[1..]);
      }
    }
  }

  lemma {:induction false} SortSorts(s: seq<string>)
    ensures Sorted(Sort(s)) && multiset(Sort(s)) == multiset(s)
  {
    if s != [] {
      SortSorts(s[1..]);
      InsertSorted(s[0], Sort(s[1..]));
      InsertKeeps(s[0], Sort(s[1..]));
      assert s == [s[0]] + s[1..];
    }
  }

  lemma HeadLeast(a: seq<string>, x: string)
    requires Sorted(a) && x in multiset(a)
    ensures a != [] && CompareText(a[0], x) <= 0
  {
    CompareTextZero(x, x);
  }

  lemma SameHead(a: seq<string>, b: seq<string>)
    requires Sorted(a) && Sorted(b) && multiset(a) == multiset(b) && a != [] && b != []
    ensures a[0] == b[0]
  {
    assert a[0] in multiset(a) && b[0] in multiset(b);
    HeadLeast(a, b[0]);
    HeadLeast(b, a[0]);
    CompareTextFlip(a[0], b[0]);
    CompareTextZero(a[0], b[0]);
  }

  /** A sorted sequence is fixed by its elements: sorting hides the order they came in. */
  lemma {:induction false} SortedUnique(a: seq<string>, b: seq<string>)
    requires Sorted(a) && Sorted(b) && multiset(a) == multiset(b)
    ensures a == b
  {
    assert |a| == |multiset(a)| == |multiset(b)| == |b|;
    if a != [] {
      SameHead(a, b);
      assert a == [a[0]] + a[1..] && b == [b[0]] + b[1..];
      assert multiset(a[1..]) == multiset(a) - multiset{a[0]} == multiset(b[1..]);
      SortedUnique(a[1..], b[1..]);
    }
  }

  lemma {:induction false} DistinctMultiset(s: seq<string>)
    requires Distinct(s)
    ensures multiset(s) == multiset(set x | x in s)
  {
    if s != [] {
      DistinctMultiset(s[1..]);
      assert s == [s[0]] + s[1..];
      assert (set x | x in s) == {s[0]} + (set x | x in s[1..]);
      assert s[0] !in s[1..];
    }
  }

  lemma {:induction false} DistinctCounts(s: seq<string>)
    requires forall x :: multiset(s)[x] <= 1
    ensures Distinct(s)
  {
    if s != [] {
      assert s == [s[0]] + s[1..];
      assert forall x :: multiset(s[1..])[x] <= multiset(s)[x];
      DistinctCounts(s[1..]);
      assert s[0] !in multiset(s[1..]);
    }
  }

  /** Sorting a listing without duplicates. */
  lemma SortedListing(s: seq<string>)
    requires Distinct(s)
    ensures Sorted(Sort(s)) && Distinct(Sort(s)) && forall p :: p in Sort(s) <==> p in s
  {
    SortSorts(s);
    DistinctMultiset(s);
    DistinctCounts(Sort(s));
    forall p
      ensures p in Sort(s) <==> p in s
    {
      assert p in Sort(s) <==> p in multiset(Sort(s));
    }
  }

  /** Sorting `b` followed by a listing, without duplicates, of the set `s`. */
  lemma SortedTail(b: seq<string>, d: seq<string>, s: set<string>)
    requires b <= d && Distinct(d[|b|..]) && forall x :: x in d[|b|..] <==> x in s
    ensures Sorted(Sort(d)) && multiset(Sort(d)) == multiset(b) + multiset(s)
  {
    SortSorts(d);
    var tail := d[|b|..];
    assert d == b + tail;
    DistinctMultiset(tail);
    assert (set x | x in tail) == s;
  }

  lemma SameListing(a: seq<string>, b: seq<string>)
    requires Sorted(a) && Distinct(a) && Sorted(b) && Distinct(b) && forall p :: p in a <==> p in b
    ensures a == b
  {
    DistinctMultiset(a);
    DistinctMultiset(b);
    assert (set p | p in a) == (set p | p in b);
    SortedUnique(a, b);
  }

  lemma SameCount(a: seq<string>, b: seq<string>)
    requires Distinct(a) && Distinct(b) && forall p :: p in a <==> p in b
    ensures |a| == |b|
  {
    DistinctMultiset(a);
    DistinctMultiset(b);
    assert (set p | p in a) == (set p | p in b);
    assert |a| == |multiset(a)| && |b| == |multiset(b)|;
  }
}
