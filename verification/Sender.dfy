/** The sending agent: each file as one ordered run of chunks, exactly one of them marked as the end. */
module Sender {
  import opened Transfer

  function EndChunk(path: Path, index: nat, gone: bool, err: string): Chunk {
    Chunk(path, index, [], true, "", gone, err)
  }

  /** What can be read of a file that opens. */
  function Readable(found: Found): Bytes
    requires found.Contents? || found.Unreadable?
  {
    if found.Contents? then found.data else found.head
  }

  function Block(path: Path, file: Bytes, idx: nat, pos: nat): Chunk
    requires pos + CHUNK_SIZE <= |file|
  {
    Chunk(path, idx, file[pos..pos + CHUNK_SIZE], false, "", false, "")
  }

  /** The chunk that ends a file: its last, short block with the checksum, or the read error. */
  function LastChunk(h: Hash, path: Path, found: Found, idx: nat, pos: nat): Chunk
    requires found.Contents? || found.Unreadable?
    requires pos <= |Readable(found)|
  {
    if found.Contents? then Chunk(path, idx, found.data[pos..], true, h(found.data), false, "")
    else EndChunk(path, idx, false, found.why)
  }

  /** The chunks of a file that opens, from block `idx`, which starts at byte `pos`, on. */
  function Blocks(h: Hash, path: Path, found: Found, idx: nat, pos: nat): (s: seq<Chunk>)
    requires found.Contents? || found.Unreadable?
    requires pos <= |Readable(found)|
    decreases |Readable(found)| - pos
  {
    if |Readable(found)| < pos + CHUNK_SIZE then
      [LastChunk(h, path, found, idx, pos)]
    else
      [Block(path, Readable(found), idx, pos)] + Blocks(h, path, found, idx + 1, pos + CHUNK_SIZE)
  }

  /** All the chunks of one file. */
  function Stream(h: Hash, path: Path, found: Found): (s: seq<Chunk>) {
    match found
    case Missing => [EndChunk(path, 0, true, "")]
    case Unopenable(why) => [EndChunk(path, 0, false, why)]
    case Unreadable(_, _) => Blocks(h, path, found, 0, 0)
    case Contents(_) => Blocks(h, path, found, 0, 0)
  }

  /** A reported problem has a text; that is how the receiver tells it from data. */
  predicate Reported(found: Found) {
    (found.Unopenable? ==> found.why != "") && (found.Unreadable? ==> found.why != "")
  }

  /** The data carried by a run of chunks, joined. */
  function Joined(s: seq<Chunk>): Bytes {
    if s == [] then [] else Joined(s[..|s| - 1]) + s[|s| - 1].data
  }

  /**
   * What every receiver may rely on: indices count up from 0, the end mark is on the last
   * chunk and only there, and a stream that says neither "gone" nor "error" carries the
   * whole file and its checksum.
   */
  predicate WellFormed(h: Hash, path: Path, found: Found, s: seq<Chunk>) {
    && s != []
    && (forall i :: 0 <= i < |s| ==> s[i].path == path && s[i].index == i)
    && (forall i :: 0 <= i < |s| ==> (s[i].eof <==> i == |s| - 1))
    && (forall i :: 0 <= i < |s| && s[i].gone ==> found.Missing? && |s| == 1)
    && (forall i :: 0 <= i < |s| && !s[i].gone && s[i].err == "" && s[i].eof ==>
          found.Contents? && Joined(s) == found.data && s[i].sha == h(found.data))
  }

  lemma {:induction false} JoinedConcat(a: seq<Chunk>, b: seq<Chunk>)
    ensures Joined(a + b) == Joined(a) + Joined(b)
  {
    if b == [] {
      assert a + b == a;
    } else {
      assert (a + b)[..|a + b| - 1] == a + b[..|b| - 1];
      JoinedConcat(a, b[..|b| - 1]);
    }
  }

  /** Chunks of one file from block `idx` on, the last of them marked as the end. */
  ghost predicate Shaped(s: seq<Chunk>, path: Path, idx: nat, err: string, sha: string) {
    && s != [] && (forall i :: 0 <= i < |s| ==> s[i].path == path && s[i].index == idx + i && !s[i].gone)
    && (forall i :: 0 <= i < |s| ==> (s[i].eof <==> i == |s| - 1))
    && s[|s| - 1].err == err && s[|s| - 1].sha == sha
  }

  lemma ShapedOne(c: Chunk, path: Path, idx: nat, err: string, sha: string)
    requires c.path == path && c.index == idx && !c.gone && c.eof && c.err == err && c.sha == sha
    ensures Shaped([c], path, idx, err, sha)
  {
  }

  lemma ShapedMore(c: Chunk, s: seq<Chunk>, path: Path, idx: nat, err: string, sha: string)
    requires Shaped(s, path, idx + 1, err, sha) && c.path == path && c.index == idx && !c.gone && !c.eof
    ensures Shaped([c] + s, path, idx, err, sha)
  {
    var t := [c] + s;
    forall i | 0 <= i < |t|
      ensures t[i].path == path && t[i].index == idx + i && !t[i].gone && (t[i].eof <==> i == |t| - 1)
    {
      assert i > 0 ==> t[i] == s[i - 1];
    }
    assert t[|t| - 1] == s[|s| - 1];
  }

  lemma {:induction false} BlocksShape(h: Hash, path: Path, found: Found, idx: nat, pos: nat)
    requires found.Contents? || found.Unreadable?
    requires pos <= |Readable(found)|
    ensures Shaped(Blocks(h, path, found, idx, pos), path, idx, if found.Contents? then "" else found.why,
                   if found.Contents? then h(found.data) else "")
    decreases |Readable(found)| - pos
  {
    var err, sha := if found.Contents? then "" else found.why, if found.Contents? then h(found.data) else "";
    if |Readable(found)| >= pos + CHUNK_SIZE {
      var rest := Blocks(h, path, found, idx + 1, pos + CHUNK_SIZE);
      BlocksShape(h, path, found, idx + 1, pos + CHUNK_SIZE);
      ShapedMore(Block(path, Readable(found), idx, pos), rest, path, idx, err, sha);
    } else {
      ShapedOne(LastChunk(h, path, found, idx, pos), path, idx, err, sha);
    }
  }

  lemma JoinedOne(c: Chunk)
    ensures Joined([c]) == c.data
  {
    assert [c][..0] == [];
  }

  lemma SplitFrom(data: Bytes, pos: nat, size: nat)
    requires pos + size <= |data|
    ensures data[pos..pos + size] + data[pos + size..] == data[pos..]
    ensures data[..pos] + data[pos..pos + size] == data[..pos + size]
  {
  }

  lemma {:induction false} BlocksJoined(h: Hash, path: Path, found: Found, idx: nat, pos: nat)
    requires found.Contents? && pos <= |found.data|
    ensures Joined(Blocks(h, path, found, idx, pos)) == found.data[pos..]
    decreases |found.data| - pos
  {
    if |found.data| < pos + CHUNK_SIZE {
      JoinedOne(LastChunk(h, path, found, idx, pos));
    } else {
      var c, rest := Block(path, found.data, idx, pos), Blocks(h, path, found, idx + 1, pos + CHUNK_SIZE);
      BlocksJoined(h, path, found, idx + 1, pos + CHUNK_SIZE);
      JoinedConcat([c], rest);
      JoinedOne(c);
      SplitFrom(found.data, pos, CHUNK_SIZE);
      assert Blocks(h, path, found, idx, pos) == [c] + rest;
    }
  }

  lemma StreamWellFormed(h: Hash, path: Path, found: Found)
    requires Reported(found)
    ensures WellFormed(h, path, found, Stream(h, path, found))
  {
    if found.Contents? || found.Unreadable? {
      BlocksShape(h, path, found, 0, 0);
      if found.Contents? {
        BlocksJoined(h, path, found, 0, 0);
      }
    }
  }

  /**
   * Streams one file, block by block. `accepts(k)` says whether the outgoing queue took
   * chunk k in time. Either the whole stream was queued, or a proper prefix of it and an error.
   */
  method SendSyncFile(h: Hash, rel: Path, found: Found, accepts: nat -> bool)
    returns (sent: seq<Chunk>, ok: bool)
    ensures ok ==> sent == Stream(h, rel, found)
    ensures !ok ==> sent < Stream(h, rel, found) && !accepts(|sent|)
  {
    if found.Missing? || found.Unopenable? {
      var end := EndChunk(rel, 0, found.Missing?, if found.Missing? then "" else found.why);
      ok := accepts(0);
      sent := if ok then [end] else [];
    } else {
      sent, ok := SendBlocks(h, rel, found, accepts);
    }
  }

  /** With one more block sent, the rest of the stream follows. */
  lemma SentNext(h: Hash, path: Path, found: Found, sent: seq<Chunk>, idx: nat, pos: nat)
    requires (found.Contents? || found.Unreadable?) && pos + CHUNK_SIZE <= |Readable(found)|
    ensures sent + Blocks(h, path, found, idx, pos) ==
      sent + [Block(path, Readable(found), idx, pos)] + Blocks(h, path, found, idx + 1, pos + CHUNK_SIZE)
  {
  }

  /** The read loop: `hashed` is what the running checksum has seen. */
  method SendBlocks(h: Hash, rel: Path, found: Found, accepts: nat -> bool)
    returns (sent: seq<Chunk>, ok: bool)
    requires found.Contents? || found.Unreadable?
    ensures ok ==> sent == Blocks(h, rel, found, 0, 0)
    ensures !ok ==> sent < Blocks(h, rel, found, 0, 0) && !accepts(|sent|)
  {
    var file := Readable(found);
    sent := [];
    var idx, pos := 0, 0;
    var hashed: Bytes := [];
    while |file| >= pos + CHUNK_SIZE
      invariant pos <= |file| && |sent| == idx && hashed == file[..pos]
      invariant Blocks(h, rel, found, 0, 0) == sent + Blocks(h, rel, found, idx, pos)
      decreases |file| - pos
    {
      var c := Block(rel, file, idx, pos);
      SplitFrom(file, pos, CHUNK_SIZE);
      SentNext(h, rel, found, sent, idx, pos);
      hashed := hashed + c.data;
      if !accepts(idx) {
        return sent, false;
      }
      sent := sent + [c];
      idx, pos := idx + 1, pos + CHUNK_SIZE;
    }
    hashed := hashed + file[pos..];
    assert hashed == file;
    var last := if found.Contents? then Chunk(rel, idx, file[pos..], true, h(hashed), false, "")
                else EndChunk(rel, idx, false, found.why);
    ok := accepts(idx);
    if ok {
      sent := sent + [last];
    }
  }
}
