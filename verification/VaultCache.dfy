/**
 * Exactly when the listing shortcut of services/storage_sync.py is right, over every run: the syncs may
 * list nothing, list without ETags, fail part-way, or download other bodies than those listed, the
 * bucket may change in any way between, and any file may be written into the folder (tools/user_vault.py).
 *
 * The folder always holds the notes that the last reset of it actually fetched, and what was written
 * into it since. A sync that skips leaves them; a sync that resets leaves what it fetches.
 */
module VaultCache {
  import opened Calls
  import opened Vault

  /** What a reset downloads: the wanted keys in order, up to the first that is not served. */
  function Fetched(order: seq<string>, served: Bodies): (held: Bodies)
    ensures forall k :: k in held ==> k in order && k in served && held[k] == served[k]
    decreases |order|
  {
    if order == [] || (Wanted(order[0]) && order[0] !in served) then map[]
    else
      var rest := Fetched(order[1..], served);
      if Wanted(order[0]) then rest[order[0] := served[order[0]]] else rest
  }

  /** The folder holds exactly these files, the profile apart. */
  ghost predicate Keeps(files: Files, held: Bodies) {
    forall r :: r != PROFILE ==> (r in files <==> PREFIX + r in held) && (r in files ==> files[r] == held[PREFIX + r])
  }

  /** These are the bucket's notes with their bodies and no other files, the profile apart. */
  ghost predicate SameNotes(b: Bucket, held: Bodies) {
    forall r :: r != PROFILE ==>
      && (PREFIX + r in held <==> PREFIX + r in b && Wanted(PREFIX + r))
      && (PREFIX + r in held ==> b[PREFIX + r].body == held[PREFIX + r])
  }

  /** One file of the folder after a download: fetched, or there before. */
  predicate FileIs(r: string, out: Files, files: Files, held: Bodies) {
    && (r in out <==> r in files || PREFIX + r in held)
    && (r in out ==> out[r] == if PREFIX + r in held then held[PREFIX + r] else files[r])
  }

  lemma FileIsNext(r: string, out: Files, files: Files, key: string, body: string, held: Bodies)
    requires PREFIX <= key && key !in held && FileIs(r, out, files[Rel(key) := body], held)
    ensures FileIs(r, out, files, held[key := body])
  {
    assert PREFIX + Rel(key) == key;
    assert PREFIX + r == key ==> r == key[|PREFIX|..];
  }

  /** What one sync leaves, complete or not: the files kept across the reset and the notes it fetched. */
  lemma {:induction false} DownloadHoldsFetched(files: Files, order: seq<string>, served: Bodies)
    requires Prefixed(order) && Distinct(order)
    ensures forall r :: FileIs(r, Download(files, order, Fetch(served)).0, files, Fetched(order, served))
    decreases |order|
  {
    if order != [] && (!Wanted(order[0]) || order[0] in served) {
      var key, rest := order[0], order[1..];
      assert key !in rest;
      if Wanted(key) {
        var next := files[Rel(key) := served[key]];
        var out := Download(next, rest, Fetch(served)).0;
        DownloadHoldsFetched(next, rest, served);
        forall r ensures FileIs(r, out, files, Fetched(order, served)) {
          FileIsNext(r, out, files, key, served[key], Fetched(rest, served));
        }
      } else {
        DownloadHoldsFetched(files, rest, served);
      }
    }
  }

  /** A download that completes has fetched every wanted key. */
  lemma {:induction false} CompletedFetchesAll(files: Files, order: seq<string>, served: Bodies)
    requires Download(files, order, Fetch(served)).1
    ensures forall k :: k in Fetched(order, served) <==> k in order && Wanted(k)
    decreases |order|
  {
    if order != [] {
      var next := if Wanted(order[0]) then files[Rel(order[0]) := served[order[0]]] else files;
      CompletedFetchesAll(next, order[1..], served);
      assert forall k :: k in order <==> k == order[0] || k in order[1..];
    }
  }

  /** A reset leaves the fetched notes, and only them. */
  lemma ResetHoldsFetched(v: Local, b: Bucket, order: seq<string>, served: Bodies)
    requires HonestBucket(b) && Orders(order, b) && !Skips(v, ListingOf(b))
    ensures var (local, ok) := Synced(v, ListingOf(b), order, Fetch(served));
      && local.files.Some? && Keeps(local.files.value, Fetched(order, served))
      && (ok ==> forall k :: k in Fetched(order, served) <==> k in b && Wanted(k))
  {
    var kept := Preserved(v.files);
    OrdersArePrefixed(order, b);
    DownloadHoldsFetched(kept, order, served);
    HeldAreKept(kept, Download(kept, order, Fetch(served)).0, Fetched(order, served));
    if Download(kept, order, Fetch(served)).1 { CompletedFetchesAll(kept, order, served); }
  }

  lemma HeldAreKept(files: Files, out: Files, held: Bodies)
    requires forall r :: r in files ==> r == PROFILE
    requires forall r :: FileIs(r, out, files, held)
    ensures Keeps(out, held)
  {
    forall r | r != PROFILE ensures (r in out <==> PREFIX + r in held) && (r in out ==> out[r] == held[PREFIX + r]) {
      assert FileIs(r, out, files, held);
    }
  }

  lemma MirrorsIffSame(files: Files, held: Bodies, b: Bucket)
    requires Keeps(files, held)
    ensures Mirrors(files, b) <==> SameNotes(b, held)
  {
    forall r | r != PROFILE && Mirrors(files, b)
      ensures (PREFIX + r in held <==> PREFIX + r in b && Wanted(PREFIX + r))
           && (PREFIX + r in held ==> b[PREFIX + r].body == held[PREFIX + r])
    {
      assert r in files <==> PREFIX + r in held;
      assert r in files <==> PREFIX + r in b && Wanted(PREFIX + r);
    }
  }

  // --- every run ------------------------------------------------------------------------------------

  /** A world, and what the last reset fetched with what was written since. */
  datatype Tracked = Tracked(world: World, held: Bodies)

  function Track(t: Tracked, a: Action): Tracked
    requires Enabled(t.world, a)
  {
    var w := t.world;
    Tracked(Step(w, a),
            if a.Sync? && !Skips(w.local, ListingOf(w.bucket)) then Fetched(a.order, a.served)
            else if a.Write? then t.held[PREFIX + a.rel := a.body] else t.held)
  }

  ghost function TrackedAfter(actions: seq<Action>): Option<Tracked>
    decreases |actions|
  {
    if actions == [] then Some(Tracked(BEGIN, map[]))
    else
      var n := |actions| - 1;
      match TrackedAfter(actions[..n])
      case None => None
      case Some(t) => if Enabled(t.world, actions[n]) then Some(Track(t, actions[n])) else None
  }

  ghost predicate HoldsLastReset(t: Tracked) {
    && HonestBucket(t.world.bucket)
    && (t.world.local.files.Some? ==> Keeps(t.world.local.files.value, t.held))
    && (t.world.local.files == None ==> t.held == map[])
  }

  lemma TrackKeepsHeld(t: Tracked, a: Action)
    requires HoldsLastReset(t) && Enabled(t.world, a)
    ensures HoldsLastReset(Track(t, a))
  {
    var w := t.world;
    if a.Sync? && !Skips(w.local, ListingOf(w.bucket)) { ResetHoldsFetched(w.local, w.bucket, a.order, a.served); }
    if a.Write? {
      WritingKeeps(if w.local.files.Some? then w.local.files.value else map[], t.held, a.rel, a.body);
    }
  }

  lemma WritingKeeps(files: Files, held: Bodies, rel: string, body: string)
    requires Keeps(files, held)
    ensures Keeps(files[rel := body], held[PREFIX + rel := body])
  {
    forall r ensures PREFIX + r == PREFIX + rel <==> r == rel { assert (PREFIX + r)[|PREFIX|..] == r; }
  }

  lemma {:induction false} RunsHoldLastReset(actions: seq<Action>)
    ensures match TrackedAfter(actions) case None => true case Some(t) => HoldsLastReset(t)
    decreases |actions|
  {
    if actions != [] {
      var n := |actions| - 1;
      RunsHoldLastReset(actions[..n]);
      match TrackedAfter(actions[..n])
      case None =>
      case Some(t) => if Enabled(t.world, actions[n]) { TrackKeepsHeld(t, actions[n]); }
    }
  }

  /** Over any run, a sync - skipped, completed or failed part-way - leaves exactly the bucket's notes if
      and only if what the last reset fetched, with what was written into the folder since, are those. */
  lemma SyncMirrorsIff(actions: seq<Action>, t: Tracked)
    requires actions != [] && actions[|actions| - 1].Sync? && TrackedAfter(actions) == Some(t)
    ensures t.world.local.files.Some?
    ensures Mirrors(t.world.local.files.value, t.world.bucket) <==> SameNotes(t.world.bucket, t.held)
  {
    RunsHoldLastReset(actions);
    MirrorsIffSame(t.world.local.files.value, t.held, t.world.bucket);
  }

  // --- the resets that are remembered ---------------------------------------------------------------

  /** A sync that resets, completes with ETags and so is remembered: the next sync of that listing skips
      and succeeds whatever it could download, and the folder is the bucket's if and only if every note
      was served at the body it was listed with. */
  lemma RememberedIsRightIff(v: Local, b: Bucket, order: seq<string>, served: Bodies,
                             order': seq<string>, served': Bodies)
    requires HonestBucket(b) && Orders(order, b) && EtagsAvailable(ListingOf(b)) && !Skips(v, ListingOf(b))
    requires Synced(v, ListingOf(b), order, Fetch(served)).1
    ensures var first := Synced(v, ListingOf(b), order, Fetch(served)).0;
      && Synced(first, ListingOf(b), order', Fetch(served')) == (first, true) && first.files.Some?
      && (Mirrors(first.files.value, b) <==>
            forall k :: k in b && Wanted(k) && k != PROFILE_KEY ==> Fetch(served)(k) == Some(b[k].body))
  {
    var first := Synced(v, ListingOf(b), order, Fetch(served)).0;
    ResetHoldsFetched(v, b, order, served);
    MirrorsIffSame(first.files.value, Fetched(order, served), b);
    SameIffServed(b, served, Fetched(order, served));
  }

  lemma SameIffServed(b: Bucket, served: Bodies, held: Bodies)
    requires HonestBucket(b) && forall k :: k in held <==> k in b && Wanted(k)
    requires forall k :: k in held ==> k in served && held[k] == served[k]
    ensures SameNotes(b, held) <==>
      forall k :: k in b && Wanted(k) && k != PROFILE_KEY ==> Fetch(served)(k) == Some(b[k].body)
  {
    if SameNotes(b, held) {
      forall k | k in b && Wanted(k) && k != PROFILE_KEY ensures Fetch(served)(k) == Some(b[k].body) {
        assert Honest(k, b[k]) && PREFIX + Rel(k) == k;
      }
    }
    forall r | r != PROFILE ensures PREFIX + r != PROFILE_KEY { assert (PREFIX + r)[|PREFIX|..] == r; }
  }

  /** A note is edited after it was listed and before it is downloaded, and the edit is then taken back:
      every later sync of the listing succeeds and keeps the edited body. */
  lemma EditUnderSyncIsKept(k: string, o: Object, body: string)
    requires Honest(k, o) && Wanted(k) && Rel(k) != PROFILE && o.etag.Some? && o.etag.value != "" && body != o.body
    ensures var b := map[k := o];
      var first := Synced(Local(None, None), ListingOf(b), [k], Fetch(map[k := body])).0;
      var (last, ok) := Synced(first, ListingOf(b), [k], Fetch(map[k := o.body]));
      ok && last.files == Some(map[Rel(k) := body]) && !Mirrors(last.files.value, b)
  {
    var b := map[k := o];
    assert k in ListingOf(b) && ListingOf(b) == map[k := o.etag];
    assert [k][1..] == [];
    assert Download(map[], [k], Fetch(map[k := body])) == (map[Rel(k) := body], true);
    RememberedIsRightIff(Local(None, None), b, [k], map[k := body], [k], map[k := o.body]);
    assert k != PROFILE_KEY by { assert PROFILE_KEY[|PREFIX|..] == PROFILE; }
    assert Fetch(map[k := body])(k) == Some(body);
  }

  // --- the resets that are not remembered -----------------------------------------------------------

  /** The listing of `b` is remembered; another bucket `c` is synced without being remembered - because
      it listed nothing or lacked ETags, or because a download failed - and then `b` is back. */
  ghost predicate Interlude(v: Local, b: Bucket, c: Bucket, order: seq<string>, served: Bodies) {
    && HonestBucket(b) && HonestBucket(c) && EtagsAvailable(ListingOf(b)) && v.last == Some(ListingOf(b))
    && Orders(order, c) && !Skips(v, ListingOf(c))
    && (!Synced(v, ListingOf(c), order, Fetch(served)).1 || !EtagsAvailable(ListingOf(c)))
  }

  /** The next sync of the old listing then skips and reports success, and the folder it leaves is the
      bucket's if and only if the interlude fetched the same notes with the same bodies. */
  lemma SkipAfterInterludeIff(v: Local, b: Bucket, c: Bucket, order: seq<string>, served: Bodies,
                              order': seq<string>, served': Bodies)
    requires Interlude(v, b, c, order, served)
    ensures var between := Synced(v, ListingOf(c), order, Fetch(served)).0;
      var (after, ok) := Synced(between, ListingOf(b), order', Fetch(served'));
      && ok && after == between && after.files.Some?
      && (Mirrors(after.files.value, b) <==> SameNotes(b, Fetched(order, served)))
  {
    ResetHoldsFetched(v, c, order, served);
    MirrorsIffSame(Synced(v, ListingOf(c), order, Fetch(served)).0.files.value, Fetched(order, served), b);
  }

  /** When the interlude's sync completed with what it listed, that is: if and only if the other bucket
      had the same notes. */
  lemma SkipAfterUnetaggedIff(v: Local, b: Bucket, c: Bucket, order: seq<string>, served: Bodies)
    requires Interlude(v, b, c, order, served) && Genuine(c, served) && Synced(v, ListingOf(c), order, Fetch(served)).1
    ensures var between := Synced(v, ListingOf(c), order, Fetch(served)).0;
      && Skips(between, ListingOf(b)) && between.files.Some?
      && (Mirrors(between.files.value, b) <==> SameNotes(b, NotesOf(c)))
  {
    SkipAfterInterludeIff(v, b, c, order, served, order, served);
    ResetHoldsFetched(v, c, order, served);
    assert Fetched(order, served) == NotesOf(c);
  }

  function NotesOf(b: Bucket): Bodies { map k | k in b && Wanted(k) :: b[k].body }

  /** A failed download that costs a note: the note is edited, the sync that would fetch the edit fails,
      and the edit is taken back. The next sync reports success over a folder without the note. */
  lemma FailedDownloadIsKept(k: string, o: Object, o': Object)
    requires Honest(k, o) && Honest(k, o') && Wanted(k) && Rel(k) != PROFILE
    requires o.etag.Some? && o.etag.value != "" && o'.etag != o.etag
    ensures var b, c := map[k := o], map[k := o'];
      var first := Synced(Local(None, None), ListingOf(b), [k], Fetch(map[k := o.body])).0;
      var (failed, ok) := Synced(first, ListingOf(c), [k], Fetch(map[]));
      var (last, ok') := Synced(failed, ListingOf(b), [k], Fetch(map[k := o.body]));
      !ok && ok' && first.files == Some(map[Rel(k) := o.body]) && last.files == Some(map[])
  {
    var b, c := map[k := o], map[k := o'];
    assert k in ListingOf(b) && ListingOf(b) == map[k := o.etag];
    assert k in ListingOf(c) && ListingOf(c)[k] == o'.etag;
    assert EtagsAvailable(ListingOf(b));
    assert [k][1..] == [];
    assert Download(map[], [k], Fetch(map[k := o.body])) == (map[Rel(k) := o.body], true);
    assert Download(map[], [k], Fetch(map[])) == (map[], false);
  }
}
