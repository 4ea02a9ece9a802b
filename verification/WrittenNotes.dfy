/**
 * What becomes of a file that the tool write_user_note puts into the folder (tools/user_vault.py): it is
 * stored nowhere else, so the next sync that resets the folder (services/storage_sync.py) decides.
 */
module WrittenNotes {
  import opened Calls
  import opened Vault
  import opened VaultCache

  /** The folder has this file with this body. */
  predicate Has(v: Local, rel: string, body: string) {
    v.files.Some? && rel in v.files.value && v.files.value[rel] == body
  }

  /** A note in the folder is still there after a sync, complete or not, if and only if the sync skips, or
      fetches that very body. */
  lemma WrittenNoteStaysIff(w: World, rel: string, body: string, order: seq<string>, served: Bodies)
    requires HonestBucket(w.bucket) && Orders(order, w.bucket) && rel != PROFILE && Has(w.local, rel, body)
    ensures var fetched := Fetched(order, served);
      Has(Step(w, Sync(order, served)).local, rel, body) <==>
      || Skips(w.local, ListingOf(w.bucket))
      || (PREFIX + rel in fetched && fetched[PREFIX + rel] == body)
  {
    if !Skips(w.local, ListingOf(w.bucket)) { ResetHoldsFetched(w.local, w.bucket, order, served); }
  }

  lemma NotesAreNotTheProfile(rel: string)
    ensures PREFIX + rel == PROFILE_KEY <==> rel == PROFILE
  {
    assert (PREFIX + rel)[|PREFIX|..] == rel && PROFILE_KEY[|PREFIX|..] == PROFILE;
  }

  /** Recording a preference costs the user the notes written before it: a sync right after the write keeps
      the note, but once a preference is recorded, and so stored at another ETag, the next sync drops it,
      complete or not. */
  lemma RecordingDropsNotes(w: World, rel: string, body: string, update: Option<string> -> string, etag: Option<string>,
                            order: seq<string>, served: Bodies, order': seq<string>, served': Bodies)
    requires HonestBucket(w.bucket) && Skips(w.local, ListingOf(w.bucket))
    requires rel != PROFILE && PREFIX + rel !in w.bucket
    requires PROFILE_KEY in w.bucket ==> w.bucket[PROFILE_KEY].etag != etag
    requires var written := Do(w, WriteNote(rel, body));
      && Possible(written, Record(update, etag)) && Orders(order, w.bucket)
      && Orders(order', Do(written, Record(update, etag)).bucket)
    ensures var written := Do(w, WriteNote(rel, body)); var recorded := Do(written, Record(update, etag));
      && Has(Step(written, Sync(order, served)).local, rel, body)
      && Step(recorded, Sync(order', served')).local.files.Some?
      && rel !in Step(recorded, Sync(order', served')).local.files.value
  {
    var written := Do(w, WriteNote(rel, body));
    var recorded := Do(written, Record(update, etag));
    NotesAreNotTheProfile(rel);
    WrittenNoteStaysIff(written, rel, body, order, served);
    RecordedIsNotListed(w.bucket, recorded.bucket, w.local.last.value, etag);
    ResetHoldsFetched(recorded.local, recorded.bucket, order', served');
  }

  /** The stored profile has another ETag than the one that was listed. */
  lemma RecordedIsNotListed(b: Bucket, c: Bucket, listing: Listing, etag: Option<string>)
    requires listing == ListingOf(b) && PROFILE_KEY in c && c[PROFILE_KEY].etag == etag
    requires PROFILE_KEY in b ==> b[PROFILE_KEY].etag != etag
    ensures ListingOf(c) != listing
  {
    assert PROFILE_KEY in ListingOf(c) && ListingOf(c)[PROFILE_KEY] == etag;
  }

  /** A profile that the tool has written over the stored one. */
  predicate Overwrites(w: World, body: string) { Agree(w) && Profile(w.local) != Some(body) }

  /** The next recording takes such a profile up: it is what the update is applied to, and is stored. */
  lemma RecordingTakesItUp(w: World, body: string, update: Option<string> -> string, etag: Option<string>)
    requires HonestBucket(w.bucket) && Overwrites(w, body)
    requires Possible(Do(w, WriteNote(PROFILE, body)), Record(update, etag))
    ensures var w' := Do(Do(w, WriteNote(PROFILE, body)), Record(update, etag));
      Agree(w') && Profile(w'.local) == Some(update(Some(body)))
  {
  }

  /** A sync before that keeps it if and only if it skips, or does not get as far as the stored profile. */
  lemma SyncKeepsItIff(w: World, body: string, order: seq<string>, served: Bodies)
    requires HonestBucket(w.bucket) && Overwrites(w, body)
    requires Possible(w, SyncNow(order, served))
    ensures var written := Do(w, WriteNote(PROFILE, body));
      Profile(Do(written, SyncNow(order, served)).local) == Some(body) <==>
      Skips(written.local, ListingOf(w.bucket)) || PROFILE_KEY !in Fetched(order, served)
  {
    var written := Do(w, WriteNote(PROFILE, body));
    if !Skips(written.local, ListingOf(w.bucket)) {
      OrdersArePrefixed(order, w.bucket);
      DownloadHoldsFetched(Preserved(written.local.files), order, served);
      assert FileIs(PROFILE, Download(Preserved(written.local.files), order, Fetch(served)).0,
                    Preserved(written.local.files), Fetched(order, served));
    }
  }
}
