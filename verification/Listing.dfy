/** How a folder's listing travels: in pieces, any of which may be lost; the count at the end tells. */
module Listing {
  import opened Subsequences
  import opened Plans

  const PIECE_BYTES: nat := 1024 * 1024
  const ENTRY_BYTES: nat := 150

  type Piece = seq<SyncFile>

  function Joined(pieces: seq<Piece>): seq<SyncFile> {
    if pieces == [] then [] else Joined(pieces[..|pieces| - 1]) + pieces[|pieces| - 1]
  }

  function PieceBytes(piece: Piece): nat {
    if piece == [] then 0 else PieceBytes(piece[..|piece| - 1]) + |piece[|piece| - 1].path| + ENTRY_BYTES
  }

  /** What a piece takes up: each path, and 150 bytes for the rest of its entry. */
  lemma {:induction false} PieceBytesAdd(a: Piece, b: Piece)
    ensures PieceBytes(a + b) == PieceBytes(a) + PieceBytes(b)
    ensures forall f: SyncFile :: PieceBytes([f]) == |f.path| + 150
  {
    forall f: SyncFile
      ensures PieceBytes([f]) == |f.path| + 150
    {
      assert [f][..0] == [];
    }
    if b == [] {
      assert a + b == a;
    } else {
      assert (a + b)[..|a + b| - 1] == a + b[..|b| - 1];
      PieceBytesAdd(a, b[..|b| - 1]);
    }
  }

  /** A piece is sent as soon as it reaches the limit. */
  predicate Fits(piece: Piece) {
    piece != [] && PieceBytes(piece[..|piece| - 1]) < PIECE_BYTES
  }

  /** `pieces`, and the one being filled, hold `files`; all but that one are as large as they get. */
  ghost predicate Packed(pieces: seq<Piece>, piece: Piece, files: seq<SyncFile>) {
    Joined(pieces) + piece == files && forall p :: p in pieces ==> Fits(p)
  }

  lemma FileAdded(pieces: seq<Piece>, piece: Piece, files: seq<SyncFile>, f: SyncFile)
    requires Packed(pieces, piece, files)
    ensures Packed(pieces, piece + [f], files + [f])
    ensures PieceBytes(piece + [f]) == PieceBytes(piece) + |f.path| + ENTRY_BYTES
    ensures PieceBytes(piece) < PIECE_BYTES ==> Fits(piece + [f])
  {
    assert (piece + [f])[..|piece|] == piece;
    assert Joined(pieces) + (piece + [f]) == Joined(pieces) + piece + [f];
  }

  lemma PieceSent(pieces: seq<Piece>, piece: Piece, files: seq<SyncFile>)
    requires Packed(pieces, piece, files) && Fits(piece)
    ensures Packed(pieces + [piece], [], files)
  {
    assert (pieces + [piece])[..|pieces|] == pieces;
  }

  /** Sends a folder's files in pieces, and counts them. */
  method ListFiles(files: seq<SyncFile>) returns (pieces: seq<Piece>, total: nat)
    ensures Joined(pieces) == files && total == |files| && forall p :: p in pieces ==> Fits(p)
  {
    pieces, total := [], 0;
    var piece: Piece := [];
    var bytes := 0;
    for i := 0 to |files|
      invariant Packed(pieces, piece, files[..i]) && total == i
      invariant bytes == PieceBytes(piece) < PIECE_BYTES
    {
      FileAdded(pieces, piece, files[..i], files[i]);
      assert files[..i + 1] == files[..i] + [files[i]];
      piece, bytes, total := piece + [files[i]], bytes + |files[i].path| + ENTRY_BYTES, total + 1;
      if bytes >= PIECE_BYTES {
        PieceSent(pieces, piece, files[..i + 1]);
        pieces, piece, bytes := pieces + [piece], [], 0;
      }
    }
    assert files[..|files|] == files;
    if piece != [] {
      ShorterPiece(piece);
      PieceSent(pieces, piece, files);
      pieces := pieces + [piece];
    }
  }

  lemma ShorterPiece(piece: Piece)
    requires piece != []
    ensures PieceBytes(piece[..|piece| - 1]) < PieceBytes(piece)
  {
  }

  /** The conductor's side of one run: what each participant has listed so far. */
  class Run {
    var lists: map<Node, seq<SyncFile>>

    constructor (nodes: set<Node>)
      ensures lists.Keys == nodes && forall n :: n in lists ==> lists[n] == []
    {
      lists := map[];
      new;
      var todo := nodes;
      while todo != {}
        invariant todo <= nodes && lists.Keys == nodes - todo && forall n :: n in lists ==> lists[n] == []
        decreases |todo|
      {
        var n :| n in todo;
        lists := lists[n := []];
        todo := todo - {n};
      }
    }

    /** One piece of a node's listing; a node that takes no part is ignored. */
    method HandleListing(node: Node, piece: Piece)
      modifies this
      ensures lists == if node in old(lists) then old(lists)[node := old(lists)[node] + piece] else old(lists)
    {
      if node in lists {
        lists := lists[node := lists[node] + piece];
      }
    }
  }

  /**
   * A listing is accepted if it has as many entries as its node counted. An empty one isn't,
   * where it could wipe folders: in a two-way sync, or on a backup sync's main server.
   */
  predicate Accepted(got: seq<SyncFile>, total: nat, emptyRefused: bool) {
    |got| == total && !(total == 0 && emptyRefused)
  }

  lemma {:induction false} JoinedMore(a: seq<Piece>, p: Piece)
    ensures Joined([p] + a) == p + Joined(a)
  {
    if a != [] {
      JoinedMore(a[..|a| - 1], p);
      assert ([p] + a)[..|[p] + a| - 1] == [p] + a[..|a| - 1];
    } else {
      assert [p] + a == [p] && [p][..0] == [];
    }
  }

  /** Losing a piece that isn't empty shows in the count. */
  lemma {:induction false} LossShows(got: seq<Piece>, sent: seq<Piece>)
    requires Sub(got, sent) && forall p :: p in sent ==> p != []
    ensures |Joined(got)| <= |Joined(sent)|
    ensures |Joined(got)| == |Joined(sent)| <==> got == sent
    decreases |sent|
  {
    if sent != [] {
      assert sent == [sent[0]] + sent[1..] && sent[0] in sent;
      assert forall p :: p in sent[1..] ==> p in sent;
      JoinedMore(sent[1..], sent[0]);
      if got != [] && got[0] == sent[0] && Sub(got[1..], sent[1..]) {
        assert got == [got[0]] + got[1..];
        JoinedMore(got[1..], got[0]);
        LossShows(got[1..], sent[1..]);
      } else {
        LossShows(got, sent[1..]);
        SubLength(got, sent[1..]);
      }
    }
  }

  /**
   * A listing is accepted only whole: whatever pieces were lost on the way, what the
   * conductor accepted is exactly what the node listed.
   */
  lemma AcceptedIsWhole(files: seq<SyncFile>, pieces: seq<Piece>, arrived: seq<Piece>, emptyRefused: bool)
    requires Joined(pieces) == files && (forall p :: p in pieces ==> Fits(p)) && Sub(arrived, pieces)
    ensures Accepted(Joined(arrived), |files|, emptyRefused) <==> arrived == pieces && !(files == [] && emptyRefused)
    ensures Accepted(Joined(arrived), |files|, emptyRefused) ==> Joined(arrived) == files
  {
    LossShows(arrived, pieces);
  }
}
