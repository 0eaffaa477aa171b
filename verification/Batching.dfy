/** The order in which a sender streams its files, and the batches that fit in one message. */
module Batching {
  import opened Transfer
  import opened Subsequences
  import Text

  const BATCH_BYTES: nat := 0x10_0000

  /** The text a list of paths takes up: each path with its quotes and comma. */
  function TextSize(paths: seq<Path>): nat {
    if paths == [] then 0 else TextSize(paths[..|paths| - 1]) + |paths[|paths| - 1]| + 4
  }

  function Concat(bs: seq<seq<Path>>): seq<Path> {
    if bs == [] then [] else Concat(bs[..|bs| - 1]) + bs[|bs| - 1]
  }

  /** A batch is one path, or paths whose text fits. */
  predicate Fits(b: seq<Path>) {
    b != [] && (|b| == 1 || TextSize(b[..|b| - 1]) + |b[|b| - 1]| <= BATCH_BYTES)
  }

  /** A batch ends only where the next path would not fit. */
  predicate Full(b: seq<Path>, next: seq<Path>) {
    next != [] && TextSize(b) + |next[0]| > BATCH_BYTES
  }

  lemma {:induction false} ConcatGrow(bs: seq<seq<Path>>, p: Path)
    requires bs != []
    ensures Concat(bs[|bs| - 1 := bs[|bs| - 1] + [p]]) == Concat(bs) + [p]
  {
    var last := |bs| - 1;
    var cs := bs[last := bs[last] + [p]];
    assert cs[..last] == bs[..last];
    assert Concat(bs[..last]) + (bs[last] + [p]) == Concat(bs[..last]) + bs[last] + [p];
  }

  lemma {:induction false} ConcatNew(bs: seq<seq<Path>>, p: Path)
    ensures Concat(bs + [[p]]) == Concat(bs) + [p]
  {
    assert (bs + [[p]])[..|bs|] == bs;
  }

  /** The text of a list: each path, and four letters for its quotes, its comma and a blank. */
  lemma {:induction false} TextSizeAdds(a: seq<Path>, b: seq<Path>)
    ensures TextSize(a + b) == TextSize(a) + TextSize(b)
    ensures forall p: Path :: TextSize([p]) == |p| + 4
  {
    forall p: Path
      ensures TextSize([p]) == |p| + 4
    {
      assert [p][..0] == [];
    }
    if b == [] {
      assert a + b == a;
    } else {
      assert (a + b)[..|a + b| - 1] == a + b[..|b| - 1];
      TextSizeAdds(a, b[..|b| - 1]);
    }
  }

  /** `bs` are batches of `paths`, in order, each as full as it can be. */
  ghost predicate Batched(bs: seq<seq<Path>>, paths: seq<Path>) {
    && Concat(bs) == paths && (forall i :: 0 <= i < |bs| ==> Fits(bs[i]))
    && (forall i, j :: 0 <= i && j == i + 1 && j < |bs| ==> Full(bs[i], bs[j]))
  }

  /** The next path begins a batch if it doesn't fit in the last one. */
  lemma BatchBegun(bs: seq<seq<Path>>, paths: seq<Path>, p: Path)
    requires Batched(bs, paths) && (bs != [] ==> TextSize(bs[|bs| - 1]) + |p| > BATCH_BYTES)
    ensures Batched(bs + [[p]], paths + [p]) && TextSize([p]) == |p| + 4
  {
    ConcatNew(bs, p);
    assert [p][..0] == [];
  }

  /** And joins it otherwise. */
  lemma BatchGrown(bs: seq<seq<Path>>, paths: seq<Path>, p: Path)
    requires Batched(bs, paths) && bs != [] && TextSize(bs[|bs| - 1]) + |p| <= BATCH_BYTES
    ensures var last := |bs| - 1; var b := bs[last] + [p];
      Batched(bs[last := b], paths + [p]) && TextSize(b) == TextSize(bs[last]) + |p| + 4
  {
    ConcatGrow(bs, p);
    var b := bs[|bs| - 1] + [p];
    assert b[..|b| - 1] == bs[|bs| - 1] && b[0] == bs[|bs| - 1][0];
  }

  /** Splits paths, in order, into batches. */
  method Batches(paths: seq<Path>) returns (out: seq<seq<Path>>)
    ensures Concat(out) == paths
    ensures forall i :: 0 <= i < |out| ==> Fits(out[i])
    ensures forall i :: 0 <= i < |out| ==> |out[i]| == 1 || TextSize(out[i]) <= BATCH_BYTES + 4
    ensures forall i :: 0 <= i < |out| - 1 ==> Full(out[i], out[i + 1])
  {
    out := [];
    var size := 0;
    for i := 0 to |paths|
      invariant Batched(out, paths[..i]) && (i > 0 ==> out != [])
      invariant out != [] ==> size == TextSize(out[|out| - 1])
    {
      var p := paths[i];
      assert paths[..i + 1] == paths[..i] + [p];
      assert i == 0 ==> out == [];
      if i == 0 || size + |p| > BATCH_BYTES {
        BatchBegun(out, paths[..i], p);
        out := out + [[p]];
        size := 0;
      } else {
        BatchGrown(out, paths[..i], p);
        var last := |out| - 1;
        out := out[last := out[last] + [p]];
      }
      size := size + |p| + 4;
    }
    assert paths[..|paths|] == paths;
  }

  /** `a` is sent before `b`: files marked `last` come last, otherwise by name. */
  predicate SentBefore(last: Path -> bool, a: Path, b: Path) {
    if last(a) != last(b) then last(b) else Text.CompareText(a, b) <= 0
  }

  /** The paths in sending order. */
  function SendOrder(paths: seq<Path>, last: Path -> bool): seq<Path> {
    Text.Sort(Filter(paths, p => !last(p))) + Text.Sort(Filter(paths, p => last(p)))
  }

  lemma SendOrderFacts(paths: seq<Path>, last: Path -> bool)
    requires Distinct(paths)
    ensures var o := SendOrder(paths, last);
      && Distinct(o) && (forall p :: p in o <==> p in paths)
      && (forall i, j :: 0 <= i < j < |o| ==> SentBefore(last, o[i], o[j]))
  {
    var plain, index := Filter(paths, p => !last(p)), Filter(paths, p => last(p));
    FilterDistinct(paths, p => !last(p));
    FilterDistinct(paths, p => last(p));
    Text.SortedListing(plain);
    Text.SortedListing(index);
    forall p
      ensures p in SendOrder(paths, last) <==> p in paths
    {
      FilterMember(paths, q => !last(q), p);
      FilterMember(paths, q => last(q), p);
    }
    var a, b := Text.Sort(plain), Text.Sort(index);
    forall i | 0 <= i < |a|
      ensures !last(a[i]) && a[i] in paths
    {
      assert a[i] in a;
      FilterMember(paths, p => !last(p), a[i]);
    }
    forall i | 0 <= i < |b|
      ensures last(b[i]) && b[i] in paths
    {
      assert b[i] in b;
      FilterMember(paths, p => last(p), b[i]);
    }
  }

  lemma {:induction false} FilterDistinct<T>(s: seq<T>, keep: T -> bool)
    requires Distinct(s)
    ensures Distinct(Filter(s, keep))
  {
    if s != [] {
      FilterDistinct(s[1..], keep);
      FilterMember(s[1..], keep, s[0]);
    }
  }
}
