/**
 * Interleaving the results of one search per named document (knowledge_chat.py, _tool_search).
 *
 * The order of the merge depends only on the lengths of the lists, so it is studied as the
 * sequence of places (document, rank) it visits; the method merges actual results.
 */
module FairMerge {
  datatype Place = Place(doc: nat, rank: nat)

  function Max(lens: seq<nat>): nat {
    if lens == [] then 0 else var m := Max(lens[1..]); if lens[0] > m then lens[0] else m
  }

  lemma {:induction false} MaxBounds(lens: seq<nat>)
    ensures forall d :: 0 <= d < |lens| ==> lens[d] <= Max(lens)
  {
    if lens == [] {
    } else {
      MaxBounds(lens[1..]);
      forall d | 0 <= d < |lens| ensures lens[d] <= Max(lens) {
        if d > 0 { assert lens[d] == lens[1..][d - 1]; }
      }
    }
  }

  /** The places of one rank, in the first `docs` documents. */
  function Row(lens: seq<nat>, rank: nat, docs: nat): seq<Place>
    requires docs <= |lens|
  {
    if docs == 0 then []
    else Row(lens, rank, docs - 1) + (if rank < lens[docs - 1] then [Place(docs - 1, rank)] else [])
  }

  /** The places of the first `ranks` ranks. */
  function Rows(lens: seq<nat>, ranks: nat): seq<Place> {
    if ranks == 0 then [] else Rows(lens, ranks - 1) + Row(lens, ranks - 1, |lens|)
  }

  function Order(lens: seq<nat>): seq<Place> { Rows(lens, Max(lens)) }

  function Lengths<T>(lists: seq<seq<T>>): (lens: seq<nat>)
    ensures |lens| == |lists| && forall d :: 0 <= d < |lists| ==> lens[d] == |lists[d]|
  {
    seq(|lists|, d requires 0 <= d < |lists| => |lists[d]|)
  }

  /** The items found at these places. */
  ghost predicate Reads<T>(merged: seq<T>, lists: seq<seq<T>>, places: seq<Place>) {
    |merged| == |places| && forall k :: 0 <= k < |places| ==>
      places[k].doc < |lists| && places[k].rank < |lists[places[k].doc]|
      && merged[k] == lists[places[k].doc][places[k].rank]
  }

  method Merge<T>(lists: seq<seq<T>>) returns (merged: seq<T>)
    ensures Reads(merged, lists, Order(Lengths(lists)))
  {
    ghost var lens := Lengths(lists);
    var longest := 0;
    for d := 0 to |lists|
      invariant longest == Max(lens[|lens| - d..])
    {
      var e := |lists| - 1 - d;
      assert lens[e..][0] == lens[e] && lens[e..][1..] == lens[e + 1..];
      if |lists[e]| > longest { longest := |lists[e]|; }
    }
    assert lens[0..] == lens;
    merged := [];
    for i := 0 to longest
      invariant Reads(merged, lists, Rows(lens, i))
    {
      merged := MergeRow(lists, i, merged, Rows(lens, i));
    }
  }

  /** One pass over the documents: the passage each has at this rank. */
  method MergeRow<T>(lists: seq<seq<T>>, i: nat, before: seq<T>, ghost places: seq<Place>) returns (merged: seq<T>)
    requires Reads(before, lists, places)
    ensures Reads(merged, lists, places + Row(Lengths(lists), i, |lists|))
  {
    ghost var lens := Lengths(lists);
    merged := before;
    for d := 0 to |lists|
      invariant Reads(merged, lists, places + Row(lens, i, d))
    {
      if i < |lists[d]| { merged := merged + [lists[d][i]]; }
      assert places + Row(lens, i, d + 1) == places + Row(lens, i, d) + (if i < lens[d] then [Place(d, i)] else []);
    }
  }

  // --- a permutation that keeps each document's order ----------------------------------------------

  predicate Before(p: Place, q: Place) { p.rank < q.rank || (p.rank == q.rank && p.doc < q.doc) }

  predicate Ascending(places: seq<Place>) { forall i, j :: 0 <= i < j < |places| ==> Before(places[i], places[j]) }

  lemma {:induction false} RowShape(lens: seq<nat>, rank: nat, docs: nat)
    requires docs <= |lens|
    ensures var row := Row(lens, rank, docs);
      && (forall p :: p in row <==> p.rank == rank && p.doc < docs && rank < lens[p.doc])
      && Ascending(row)
  {
    if docs > 0 { RowShape(lens, rank, docs - 1); }
  }

  lemma AscendingJoin(a: seq<Place>, b: seq<Place>)
    requires Ascending(a) && Ascending(b) && forall p, q :: p in a && q in b ==> Before(p, q)
    ensures Ascending(a + b)
  {
    forall i, j | 0 <= i < j < |a + b| ensures Before((a + b)[i], (a + b)[j]) {
      if i < |a| <= j { assert a[i] in a && b[j - |a|] in b; }
    }
  }

  predicate Shape(lens: seq<nat>, ranks: nat, p: Place) { p.rank < ranks && p.doc < |lens| && p.rank < lens[p.doc] }

  lemma JoinShape(lens: seq<nat>, rank: nat, a: seq<Place>, b: seq<Place>)
    requires Ascending(a) && Ascending(b)
    requires forall p :: p in a <==> Shape(lens, rank, p)
    requires forall p :: p in b <==> p.rank == rank && p.doc < |lens| && rank < lens[p.doc]
    ensures Ascending(a + b) && forall p :: p in a + b <==> Shape(lens, rank + 1, p)
  {
    AscendingJoin(a, b);
    assert forall p :: p in a + b <==> p in a || p in b;
  }

  lemma {:induction false} RowsShape(lens: seq<nat>, ranks: nat)
    ensures forall p :: p in Rows(lens, ranks) <==> Shape(lens, ranks, p)
    ensures Ascending(Rows(lens, ranks))
  {
    if ranks > 0 {
      RowsShape(lens, ranks - 1);
      RowShape(lens, ranks - 1, |lens|);
      JoinShape(lens, ranks - 1, Rows(lens, ranks - 1), Row(lens, ranks - 1, |lens|));
    }
  }

  /** Every result of every list appears exactly once, and each list keeps its own order. */
  lemma MergeIsAPermutation(lens: seq<nat>)
    ensures forall p :: p in Order(lens) <==> p.doc < |lens| && p.rank < lens[p.doc]
    ensures forall i, j :: 0 <= i < j < |Order(lens)| ==>
      Order(lens)[i] != Order(lens)[j]
      && (Order(lens)[i].doc == Order(lens)[j].doc ==> Order(lens)[i].rank < Order(lens)[j].rank)
  {
    RowsShape(lens, Max(lens));
    MaxBounds(lens);
    assert forall i, j :: 0 <= i < j < |Order(lens)| ==> Before(Order(lens)[i], Order(lens)[j]);
  }

  // --- fairness -------------------------------------------------------------------------------------

  /** How many results of one document are among these places. */
  function Share(places: seq<Place>, doc: nat): nat {
    if places == [] then 0
    else Share(places[..|places| - 1], doc) + (if places[|places| - 1].doc == doc then 1 else 0)
  }

  lemma {:induction false} ShareJoin(a: seq<Place>, b: seq<Place>, doc: nat)
    ensures Share(a + b, doc) == Share(a, doc) + Share(b, doc)
    decreases |b|
  {
    if b == [] {
      assert a + b == a;
    } else {
      var n := |b| - 1;
      assert (a + b)[..|a + b| - 1] == a + b[..n];
      ShareJoin(a, b[..n], doc);
    }
  }

  lemma {:induction false} RowShare(lens: seq<nat>, rank: nat, docs: nat, doc: nat)
    requires docs <= |lens| && doc < |lens|
    ensures Share(Row(lens, rank, docs), doc) == if doc < docs && rank < lens[doc] then 1 else 0
  {
    if docs > 0 {
      var before := Row(lens, rank, docs - 1);
      RowShare(lens, rank, docs - 1, doc);
      if rank < lens[docs - 1] {
        assert Row(lens, rank, docs) == before + [Place(docs - 1, rank)];
        LastShare(before, Place(docs - 1, rank), doc);
      } else {
        assert Row(lens, rank, docs) == before;
      }
    }
  }

  lemma LastShare(before: seq<Place>, p: Place, doc: nat)
    ensures Share(before + [p], doc) == Share(before, doc) + if p.doc == doc then 1 else 0
  {
    assert (before + [p])[..|before|] == before;
  }

  function Reach(ranks: nat, len: nat): nat { if ranks < len then ranks else len }

  lemma {:induction false} RowsShare(lens: seq<nat>, ranks: nat, doc: nat)
    requires doc < |lens|
    ensures Share(Rows(lens, ranks), doc) == Reach(ranks, lens[doc])
  {
    if ranks == 0 {
    } else {
      RowsShare(lens, ranks - 1, doc);
      NextRowShare(lens, ranks - 1, doc, Rows(lens, ranks - 1));
    }
  }

  lemma NextRowShare(lens: seq<nat>, rank: nat, doc: nat, before: seq<Place>)
    requires doc < |lens| && Share(before, doc) == Reach(rank, lens[doc])
    ensures Share(before + Row(lens, rank, |lens|), doc) == Reach(rank + 1, lens[doc])
  {
    RowShare(lens, rank, |lens|, doc);
    ShareJoin(before, Row(lens, rank, |lens|), doc);
  }

  lemma {:induction false} RowPrefix(lens: seq<nat>, rank: nat, docs: nat, m: nat) returns (d: nat)
    requires docs <= |lens| && m <= |Row(lens, rank, docs)|
    ensures d <= docs && Row(lens, rank, docs)[..m] == Row(lens, rank, d)
  {
    if m == |Row(lens, rank, docs)| {
      d := docs;
    } else {
      d := RowPrefix(lens, rank, docs - 1, m);
    }
  }

  /** Any prefix of the merge is some whole ranks and the beginning of one more. */
  lemma {:induction false} PrefixShape(lens: seq<nat>, ranks: nat, m: nat) returns (r: nat, d: nat)
    requires m <= |Rows(lens, ranks)|
    ensures r <= ranks && d <= |lens| && Rows(lens, ranks)[..m] == Rows(lens, r) + Row(lens, r, d)
  {
    if ranks == 0 {
      r, d := 0, 0;
    } else if m <= |Rows(lens, ranks - 1)| {
      r, d := PrefixShape(lens, ranks - 1, m);
    } else {
      r := ranks - 1;
      d := RowPrefix(lens, r, |lens|, m - |Rows(lens, r)|);
    }
  }

  /** In every prefix of the merge, a document that still has results left is at most one result
      behind any other; so two documents that both have results left differ by at most one. */
  lemma EveryPrefixIsFair(lens: seq<nat>, m: nat, d: nat, e: nat)
    requires m <= |Order(lens)| && d < |lens| && e < |lens|
    ensures var shown := Order(lens)[..m];
      Share(shown, d) < lens[d] ==> Share(shown, e) <= Share(shown, d) + 1
  {
    var r, docs := PrefixShape(lens, Max(lens), m);
    RowsShare(lens, r, d);
    RowsShare(lens, r, e);
    RowShare(lens, r, docs, d);
    RowShare(lens, r, docs, e);
    ShareJoin(Rows(lens, r), Row(lens, r, docs), d);
    ShareJoin(Rows(lens, r), Row(lens, r, docs), e);
  }
}
