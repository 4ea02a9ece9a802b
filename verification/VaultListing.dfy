/**
 * What a listing of the vault amounts to (services/storage_sync.py): the dictionary and the order a sync
 * works with, told from the entries of its pages and, where the pages list a bucket, from the bucket.
 */
module VaultListing {
  import opened Calls
  import opened Vault

  lemma FlattenMore(pages: seq<seq<Entry>>, page: seq<Entry>)
    ensures Flatten(pages + [page]) == Flatten(pages) + page
  {
    assert (pages + [page])[..|pages|] == pages;
  }

  lemma Regroup<T>(a: seq<T>, b: seq<T>, c: seq<T>)
    ensures a + (b + c) == (a + b) + c
  {
  }

  lemma {:induction false} FlattenOfBoth(a: seq<seq<Entry>>, b: seq<seq<Entry>>)
    ensures Flatten(a + b) == Flatten(a) + Flatten(b)
    decreases |b|
  {
    if b == [] {
      assert a + b == a;
    } else {
      var front, last := b[..|b| - 1], b[|b| - 1];
      FlattenOfBoth(a, front);
      assert b == front + [last];
      Regroup(a, front, [last]);
      FlattenMore(a + front, last);
      Regroup(Flatten(a), Flatten(front), last);
    }
  }

  /** Every page is listed in its place. */
  lemma PagesFollow(before: seq<seq<Entry>>, page: seq<Entry>, after: seq<seq<Entry>>)
    ensures Flatten(before + [page] + after) == Flatten(before) + page + Flatten(after)
  {
    FlattenOfBoth(before + [page], after);
    FlattenMore(before, page);
  }

  predicate Names(entries: seq<Entry>, i: nat, k: string) { i < |entries| && entries[i].key == Some(k) }

  predicate FirstNames(entries: seq<Entry>, i: nat, k: string) {
    Names(entries, i, k) && forall j: nat :: j < i ==> !Names(entries, j, k)
  }

  ghost predicate LastNames(entries: seq<Entry>, i: nat, k: string) {
    Names(entries, i, k) && forall j: nat :: j > i ==> !Names(entries, j, k)
  }

  lemma NamesInShorter(entries: seq<Entry>, i: nat, k: string)
    requires entries != []
    ensures i < |entries| - 1 ==> (Names(entries, i, k) <==> Names(entries[..|entries| - 1], i, k))
  {
  }

  lemma {:induction false} LastIsListed(entries: seq<Entry>, i: nat, k: string)
    requires k != "" && LastNames(entries, i, k)
    ensures k in Listed(entries) && Listed(entries)[k] == entries[i].etag
    decreases |entries|
  {
    var n := |entries| - 1;
    if i < n {
      assert !Names(entries, n, k);
      forall j: nat | j > i ensures !Names(entries[..n], j, k) {
        NamesInShorter(entries, j, k);
      }
      LastIsListed(entries[..n], i, k);
    }
  }

  lemma {:induction false} ListedIsNamed(entries: seq<Entry>, k: string) returns (i: nat)
    requires k in Listed(entries)
    ensures k != "" && LastNames(entries, i, k)
    decreases |entries|
  {
    var n := |entries| - 1;
    if Names(entries, n, k) && k != "" {
      i := n;
    } else {
      i := ListedIsNamed(entries[..n], k);
      forall j: nat | j > i ensures !Names(entries, j, k) {
        NamesInShorter(entries, j, k);
      }
    }
  }

  lemma {:induction false} LastOf(entries: seq<Entry>, i: nat, k: string) returns (j: nat)
    requires Names(entries, i, k)
    ensures LastNames(entries, j, k)
    decreases |entries| - i
  {
    if m: nat :| m > i && Names(entries, m, k) { j := LastOf(entries, m, k); } else { j := i; }
  }

  /** The dictionary has exactly the non-empty keys that some page names, each with the ETag that came with
      it last. */
  lemma ListedIs(entries: seq<Entry>, k: string)
    ensures k in Listed(entries) <==> k != "" && exists i: nat :: Names(entries, i, k)
    ensures k in Listed(entries) ==> forall i: nat :: LastNames(entries, i, k) ==> Listed(entries)[k] == entries[i].etag
  {
    if k in Listed(entries) { var i := ListedIsNamed(entries, k); }
    if i: nat :| k != "" && Names(entries, i, k) {
      var j := LastOf(entries, i, k);
      LastIsListed(entries, j, k);
    }
    forall i: nat | k in Listed(entries) && LastNames(entries, i, k) ensures Listed(entries)[k] == entries[i].etag {
      var j := ListedIsNamed(entries, k);
      LastIsListed(entries, i, k);
    }
  }

  /** Where the keys of the order are first named. */
  predicate Ordered(places: seq<nat>, order: seq<string>, entries: seq<Entry>) {
    && |places| == |order|
    && (forall i, j :: 0 <= i < j < |places| ==> places[i] < places[j])
    && forall i :: 0 <= i < |places| ==> FirstNames(entries, places[i], order[i])
  }

  lemma FirstInLonger(entries: seq<Entry>, i: nat, k: string)
    requires entries != [] && FirstNames(entries[..|entries| - 1], i, k)
    ensures FirstNames(entries, i, k)
  {
    NamesInShorter(entries, i, k);
    forall j: nat | j < i ensures !Names(entries, j, k) {
      NamesInShorter(entries, j, k);
    }
  }

  lemma NewestIsFirst(entries: seq<Entry>, k: string)
    requires entries != [] && k != "" && entries[|entries| - 1].key == Some(k)
    requires k !in Listed(entries[..|entries| - 1])
    ensures FirstNames(entries, |entries| - 1, k)
  {
    forall j: nat | j < |entries| - 1 ensures !Names(entries, j, k) {
      NamesInShorter(entries, j, k);
      ListedIs(entries[..|entries| - 1], k);
    }
  }

  /** The order is that in which the keys are first named. */
  lemma {:induction false} OrderIs(entries: seq<Entry>) returns (places: seq<nat>)
    ensures Ordered(places, FirstSeen(entries), entries)
    decreases |entries|
  {
    if entries == [] {
      places := [];
    } else {
      var n := |entries| - 1;
      var key := entries[n].key;
      places := OrderIs(entries[..n]);
      forall i | 0 <= i < |places| ensures FirstNames(entries, places[i], FirstSeen(entries[..n])[i]) {
        FirstInLonger(entries, places[i], FirstSeen(entries[..n])[i]);
      }
      EveryKeyIsSeenOnce(entries[..n]);
      if key.Some? && key.value != "" && key.value !in FirstSeen(entries[..n]) {
        NewestIsFirst(entries, key.value);
        places := places + [n];
      }
    }
  }

  /** Every object once, with its ETag, and nothing else. */
  ghost predicate Lists(entries: seq<Entry>, b: Bucket) {
    && (forall i :: 0 <= i < |entries| ==>
          entries[i].key.Some? && entries[i].key.value in b && entries[i].etag == b[entries[i].key.value].etag)
    && (forall i, j :: 0 <= i < j < |entries| ==> entries[i].key != entries[j].key)
    && (forall k :: k in b ==> exists i: nat :: Names(entries, i, k))
  }

  lemma ListedAt(entries: seq<Entry>, b: Bucket, k: string)
    requires Lists(entries, b) && "" !in b
    ensures k in Listed(entries) <==> k in b
    ensures k in b ==> Listed(entries)[k] == b[k].etag
  {
    ListedIs(entries, k);
    if k in b {
      var i: nat :| Names(entries, i, k);
      assert LastNames(entries, i, k);
    }
  }

  /** A listing of a bucket, however it is cut into pages, is the bucket's. */
  lemma ListingIsTheBuckets(entries: seq<Entry>, b: Bucket)
    requires Lists(entries, b) && "" !in b
    ensures Listed(entries) == ListingOf(b) && Orders(FirstSeen(entries), b)
  {
    forall k ensures (k in Listed(entries) <==> k in b) && (k in b ==> Listed(entries)[k] == b[k].etag) {
      ListedAt(entries, b, k);
    }
    EveryKeyIsSeenOnce(entries);
  }

  /** So a whole sync of pages that list the bucket is the step of the model. */
  lemma SyncOfPagesIsTheStep(w: World, pages: seq<seq<Entry>>, served: Bodies)
    requires Lists(Flatten(pages), w.bucket) && "" !in w.bucket
    ensures var entries := Flatten(pages); var a := Sync(FirstSeen(entries), served);
      && Enabled(w, a) && Step(w, a).bucket == w.bucket
      && Synced(w.local, Listed(entries), FirstSeen(entries), Fetch(served)).0 == Step(w, a).local
  {
    ListingIsTheBuckets(Flatten(pages), w.bucket);
  }

  /** A sync keeps what is there only where the listing is not empty, has a non-empty ETag for everything,
      and is the one remembered, and where the folder exists. */
  lemma SkipsIff(v: Local, listing: Listing, order: seq<string>, fetch: string -> Option<string>)
    ensures Skips(v, listing) <==>
      && listing.Keys != {} && (forall k :: k in listing ==> listing[k] != None && listing[k] != Some(""))
      && v.last == Some(listing) && v.files != None
    ensures Skips(v, listing) ==> Synced(v, listing, order, fetch) == (v, true)
  {
    if listing.Keys == {} { assert listing == map[]; }
  }

  /** Which objects are notes: those with a name after the prefix, ending in ".md". */
  lemma NotesAre(r: string)
    ensures Wanted(PREFIX + r) <==> r != "" && |PREFIX + r| >= 3 && (PREFIX + r)[|PREFIX + r| - 3..] == ".md"
    ensures Rel(PREFIX + r) == r
  {
    assert (PREFIX + r)[|PREFIX|..] == r;
  }

  /** A note edited between two listings, whatever the first was, is downloaded again by the next sync. */
  lemma EditIsNoticed(v: Local, entries: seq<Entry>, i: nat, k: string)
    requires k != "" && LastNames(entries, i, k) && v.last.Some?
    requires k !in v.last.value || v.last.value[k] != entries[i].etag
    ensures !Skips(v, Listed(entries))
  {
    LastIsListed(entries, i, k);
  }
}
