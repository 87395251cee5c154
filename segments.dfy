/**
 * The show-page parser. The page is given as the list of its `div.segment__track` nodes in
 * document order, each node as the texts of the `span` elements found beneath it; the HTML
 * parsing itself belongs to a third-party library and is not modelled.
 */
module Segments {
  import opened Wrappers
  import Sequences

  /** One `segment__track` node: the texts of its spans, in document order. */
  type Segment = seq<string>

  /** The `"%s - %s"` rendering of an artist and a song. */
  function Entry(artist: string, song: string): (r: string)
    ensures |r| == |artist| + 3 + |song|
    ensures r[..|artist|] == artist && r[|artist|..|artist| + 3] == " - " && r[|artist| + 3..] == song
  {
    artist + " - " + song
  }

  /** What one node contributes: an entry when it has exactly two spans, nothing otherwise. */
  function Kept(node: Segment): Option<string>
  {
    if |node| == 2 then Some(Entry(node[0], node[1])) else None
  }

  /** The entries the parser produces for `nodes`. */
  function Entries(nodes: seq<Segment>): seq<string>
  {
    Sequences.FilterMap(nodes, Kept)
  }

  /** The segment loop: appends one entry for every node with exactly two spans. */
  method ParseSegments(nodes: seq<Segment>) returns (artistSongs: seq<string>)
    ensures artistSongs == Entries(nodes)
  {
    artistSongs := [];
    for i := 0 to |nodes|
      invariant artistSongs == Entries(nodes[..i])
    {
      var node := nodes[i];
      assert nodes[..i + 1] == nodes[..i] + [node];
      Sequences.FilterMapSnoc(nodes[..i], node, Kept);
      if |node| != 2 {
        continue;
      }
      var artist := node[0];
      var song := node[1];
      artistSongs := artistSongs + [Entry(artist, song)];
    }
    assert nodes[..|nodes|] == nodes;
  }

  /**
   * The entries are exactly those of the nodes with two spans, in document order: the k-th entry
   * comes from the k-th such node, and a node is used if and only if it has exactly two spans.
   */
  lemma EntriesInDocumentOrder(nodes: seq<Segment>)
    ensures var used := Sequences.KeptIndices(nodes, Kept);
      && |Entries(nodes)| == |used| <= |nodes|
      && (forall k :: 0 <= k < |used| ==>
            used[k] < |nodes| && |nodes[used[k]]| == 2 &&
            Entries(nodes)[k] == nodes[used[k]][0] + " - " + nodes[used[k]][1])
      && (forall k, l :: 0 <= k < l < |used| ==> used[k] < used[l])
      && (forall i :: 0 <= i < |nodes| ==> (i in used <==> |nodes[i]| == 2))
  {
    Sequences.FilterMapIndices(nodes, Kept);
    var used := Sequences.KeptIndices(nodes, Kept);
    forall k | 0 <= k < |used|
      ensures used[k] < |nodes| && |nodes[used[k]]| == 2 &&
              Entries(nodes)[k] == nodes[used[k]][0] + " - " + nodes[used[k]][1]
    {
      assert Kept(nodes[used[k]]) == Some(Entries(nodes)[k]);
    }
  }

  /** The parse of two concatenated runs of nodes is the concatenation of their parses. */
  lemma EntriesAppend(a: seq<Segment>, b: seq<Segment>)
    ensures Entries(a + b) == Entries(a) + Entries(b)
  {
    Sequences.FilterMapAppend(a, b, Kept);
  }

  /** A page with no two-span node yields no entry at all, never a partial one. */
  lemma {:induction false} NoTwoSpanNodeNoEntries(nodes: seq<Segment>)
    requires forall i :: 0 <= i < |nodes| ==> |nodes[i]| != 2
    ensures Entries(nodes) == []
    decreases |nodes|
  {
    if nodes != [] {
      NoTwoSpanNodeNoEntries(nodes[..|nodes| - 1]);
    }
  }
}
