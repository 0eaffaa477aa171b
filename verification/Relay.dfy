/**
 * The conductor's relay: senders take turns, a batch at a time, and a chunk goes on to those
 * nodes that its file is routed to. Chunks may be lost before and after.
 */
module Relay {
  import opened Transfer
  import opened Subsequences
  import opened Plans

  /** A chunk arriving at the conductor, and the receivers that can't take it in time. */
  datatype Arrival = Arrival(node: Node, chunk: Chunk, stuck: set<Node>)

  /** The relay state of a run; `wire` is what was forwarded to each receiver, in order. */
  datatype Link = Link(source: Node, routes: map<Path, seq<Node>>, dropped: set<Node>, wire: map<Node, seq<Chunk>>)

  function WireTo(k: Link, n: Node): seq<Chunk> {
    if n in k.wire then k.wire[n] else []
  }

  function RouteOf(k: Link, p: Path): seq<Node> {
    if p in k.routes then k.routes[p] else []
  }

  /** Whether `n` gets the chunk. */
  predicate Reaches(k: Link, a: Arrival, n: Node) {
    a.node == k.source && n in RouteOf(k, a.chunk.path) && n !in k.dropped && n !in a.stuck
  }

  /** `m` is `k` after the chunk was handled. */
  ghost predicate Forwarded(k: Link, a: Arrival, m: Link) {
    && m.source == k.source && m.routes == k.routes
    && (forall n :: n in m.dropped <==>
        n in k.dropped || (a.node == k.source && n in RouteOf(k, a.chunk.path) && n in a.stuck))
    && (forall n :: WireTo(m, n) == if Reaches(k, a, n) then WireTo(k, n) + [a.chunk] else WireTo(k, n))
  }

  class RelayRun {
    var source: Node                    // whose turn it is to send
    var routes: map<Path, seq<Node>>    // where each file of this batch goes
    var dropped: set<Node>              // nodes that get no more chunks
    var wire: map<Node, seq<Chunk>>

    function State(): Link
      reads this
    {
      Link(source, routes, dropped, wire)
    }

    constructor ()
      ensures State() == Link(0, map[], {}, map[])
    {
      source, routes, dropped, wire := 0, map[], {}, map[];
    }

    /** Passes a chunk on, if it comes from the node whose turn it is. */
    method HandleChunk(a: Arrival)
      requires forall p :: p in routes ==> Distinct(routes[p])
      modifies this
      ensures Forwarded(old(State()), a, State())
    {
      if a.node != source || a.chunk.path !in routes {
        return;
      }
      var to := routes[a.chunk.path];
      ghost var k := State();
      var i := 0;
      while i < |to|
        invariant i <= |to| && source == k.source && routes == k.routes
        invariant forall n :: n in dropped <==> n in k.dropped || (n in to[..i] && n in a.stuck)
        invariant forall n :: WireTo(State(), n) == if n in to[..i] && Reaches(k, a, n) then WireTo(k, n) + [a.chunk]
          else WireTo(k, n)
      {
        var d := to[i];
        assert d !in to[..i] && to[..i + 1] == to[..i] + [d];
        if d !in dropped {
          if d in a.stuck {
            dropped := dropped + {d};
          } else {
            wire := wire[d := (if d in wire then wire[d] else []) + [a.chunk]];
          }
        }
        i := i + 1;
      }
      assert to[..|to|] == to;
    }
  }
}
