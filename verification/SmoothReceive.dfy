/** When nothing goes wrong a receive succeeds: every chunk arrives, every write works, every file counts. */
module SmoothReceive {
  import opened Transfer
  import opened Receiver
  import Sender

  const WORKS: Io := Io(true, true, true)

  predicate AllWork(es: seq<Event>) {
    forall e :: e in es ==> e.io == WORKS
  }

  /** A file a receiver can be sent and get: it has a path under the folder, and is read whole or gone. */
  predicate Gettable(i: Item) {
    LocalPath(i.path) && (i.found.Contents? || i.found.Missing?)
  }

  /** Between files, skipping none. */
  predicate BetweenFiles(s: Site) {
    s.tmp.None? && s.skip == ""
  }

  /** Before block `idx` of a file, its bytes up to `pos` received. */
  predicate Midway(s: Site, path: Path, data: Bytes, idx: nat, pos: nat) {
    && s.skip == "" && pos <= |data|
    && if idx == 0 then s.tmp.None? && pos == 0 else s.tmp == Some(path) && s.next == idx && s.hashed == data[..pos]
  }

  lemma FullBlock(h: Hash, s: Site, path: Path, data: Bytes, idx: nat, pos: nat)
    requires Inv(s) && LocalPath(path) && Midway(s, path, data, idx, pos) && pos + CHUNK_SIZE <= |data|
    ensures var t := Step(h, s, Sender.Block(path, data, idx, pos), WORKS);
      && Midway(t, path, data, idx + 1, pos + CHUNK_SIZE) && t.errors == s.errors && t.copied == s.copied
      && t.skipped == s.skipped
  {
    assert data[..pos] + data[pos..pos + CHUNK_SIZE] == data[..pos + CHUNK_SIZE];
  }

  lemma FinalBlock(h: Hash, s: Site, path: Path, data: Bytes, idx: nat, pos: nat)
    requires Inv(s) && LocalPath(path) && Midway(s, path, data, idx, pos)
    ensures var t := Step(h, s, Sender.LastChunk(h, path, Contents(data), idx, pos), WORKS);
      BetweenFiles(t) && t.errors == s.errors && t.copied == s.copied + 1 && t.skipped == s.skipped
  {
    assert data[..pos] + data[pos..] == data;
  }

  lemma {:induction false} BlocksReceived(h: Hash, s: Site, es: seq<Event>, path: Path, data: Bytes, idx: nat, pos: nat)
    requires Inv(s) && LocalPath(path) && Midway(s, path, data, idx, pos) && AllWork(es)
    requires Chunks(es) == Sender.Blocks(h, path, Contents(data), idx, pos)
    ensures var t := Run(h, s, es);
      BetweenFiles(t) && t.errors == s.errors && t.copied == s.copied + 1 && t.skipped == s.skipped
    decreases |data| - pos
  {
    assert |Chunks(es)| == |es| && Chunks(es)[0] == es[0].chunk;
    ChunksTail(es);
    StepKeepsInv(h, s, es[0].chunk, es[0].io);
    assert es[0] in es;
    var t := Step(h, s, es[0].chunk, WORKS);
    if |data| < pos + CHUNK_SIZE {
      FinalBlock(h, s, path, data, idx, pos);
      assert es[1..] == [];
    } else {
      FullBlock(h, s, path, data, idx, pos);
      BlocksReceived(h, t, es[1..], path, data, idx + 1, pos + CHUNK_SIZE);
    }
  }

  lemma GoneReceived(h: Hash, s: Site, path: Path)
    requires Inv(s) && BetweenFiles(s) && path != ""
    ensures var t := Step(h, s, Sender.EndChunk(path, 0, true, ""), WORKS);
      BetweenFiles(t) && t.errors == s.errors && t.copied == s.copied && t.skipped == s.skipped + 1
  {
  }

  /** One file, whole. */
  lemma FileGot(h: Hash, s: Site, es: seq<Event>, i: Item)
    requires Inv(s) && BetweenFiles(s) && Gettable(i) && AllWork(es) && Chunks(es) == Sender.Stream(h, i.path, i.found)
    ensures var t := Run(h, s, es);
      && BetweenFiles(t) && t.errors == s.errors
      && t.copied == s.copied + (if i.found.Contents? then 1 else 0)
      && t.skipped == s.skipped + (if i.found.Contents? then 0 else 1)
  {
    if i.found.Missing? {
      ChunksTail(es);
      StepKeepsInv(h, s, es[0].chunk, es[0].io);
      assert es[0] in es && es[1..] == [];
      GoneReceived(h, s, i.path);
    } else {
      BlocksReceived(h, s, es, i.path, i.found.data, 0, 0);
    }
  }

  /** How many of the files are there to be read. */
  function Readable(items: seq<Item>): nat {
    if items == [] then 0 else (if items[0].found.Contents? then 1 else 0) + Readable(items[1..])
  }

  /** All files, whole: those read count as copied, those gone as skipped, none as an error. */
  lemma {:induction false} AllGot(h: Hash, s: Site, es: seq<Event>, items: seq<Item>)
    requires Inv(s) && BetweenFiles(s) && AllWork(es) && Chunks(es) == Flow(h, items)
    requires forall i :: 0 <= i < |items| ==> Gettable(items[i])
    ensures var t := Run(h, s, es);
      && BetweenFiles(t) && t.errors == s.errors && t.copied == s.copied + Readable(items)
      && t.copied + t.skipped == s.copied + s.skipped + |items|
    decreases |items|
  {
    if items != [] {
      var st := Sender.Stream(h, items[0].path, items[0].found);
      var k := |st|;
      assert Chunks(es) == st + Flow(h, items[1..]);
      ChunksParts(es, k);
      RunSplit(h, s, es, k);
      FileGot(h, s, es[..k], items[0]);
      AllGot(h, Run(h, s, es[..k]), es[k..], items[1..]);
    }
  }

  lemma ChunksParts(es: seq<Event>, k: nat)
    requires k <= |Chunks(es)|
    ensures |Chunks(es)| == |es| && Chunks(es[..k]) == Chunks(es)[..k] && Chunks(es[k..]) == Chunks(es)[k..]
  {
  }
}
