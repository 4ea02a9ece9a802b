/**
 * The local snapshot of one user's notes (services/storage_sync.py): listing, the ETag shortcut,
 * reset and download, and the profile file that survives a reset (with the locked sections of
 * orchestrator.py that use it).
 */
module Vault {
  import opened Calls

  /** "<user_id>/", under which all of the user's objects are stored. */
  const PREFIX: string

  /** The body a key had when it had this ETag: equal ETags mean equal content. */
  const Version: (string, string) -> string

  const SUFFIX := ".md"
  const PROFILE := "user_preferences.md"

  type Files = map<string, string>
  type Listing = map<string, Option<string>>

  /** Bodies by key. */
  type Bodies = map<string, string>

  /** The local folder, if it exists, and the listing remembered from the last good sync. */
  datatype Local = Local(files: Option<Files>, last: Option<Listing>)

  predicate EndsWith(s: string, t: string) { |t| <= |s| && s[|s| - |t|..] == t }

  function Rel(key: string): string { if PREFIX <= key then key[|PREFIX|..] else key }

  predicate Wanted(key: string) { EndsWith(key, SUFFIX) && Rel(key) != "" }

  predicate EtagsAvailable(l: Listing) {
    l != map[] && forall k :: k in l ==> l[k].Some? && l[k].value != ""
  }

  /** What a reset carries across. */
  function Preserved(files: Option<Files>): Files {
    if files.Some? && PROFILE in files.value then map[PROFILE := files.value[PROFILE]] else map[]
  }

  /** Downloads in listing order, up to the first that fails. */
  function Download(files: Files, order: seq<string>, fetch: string -> Option<string>): (Files, bool)
    decreases |order|
  {
    if order == [] then (files, true)
    else if !Wanted(order[0]) then Download(files, order[1..], fetch)
    else match fetch(order[0])
      case None => (files, false)
      case Some(body) => Download(files[Rel(order[0]) := body], order[1..], fetch)
  }

  predicate Skips(v: Local, listing: Listing) { EtagsAvailable(listing) && v.last == Some(listing) && v.files.Some? }

  function Synced(v: Local, listing: Listing, order: seq<string>, fetch: string -> Option<string>): (Local, bool) {
    if Skips(v, listing) then (v, true)
    else
      var (files, ok) := Download(Preserved(v.files), order, fetch);
      (Local(Some(files), if ok && EtagsAvailable(listing) then Some(listing) else v.last), ok)
  }

  // --- the code -------------------------------------------------------------------------------------

  datatype Entry = Entry(key: Option<string>, etag: Option<string>)

  function Listed(entries: seq<Entry>): Listing {
    if entries == [] then map[]
    else
      var last := entries[|entries| - 1];
      var before := Listed(entries[..|entries| - 1]);
      if last.key.Some? && last.key.value != "" then before[last.key.value := last.etag] else before
  }

  function Flatten(pages: seq<seq<Entry>>): seq<Entry> {
    if pages == [] then [] else Flatten(pages[..|pages| - 1]) + pages[|pages| - 1]
  }

  /** The dictionary's keys in the order they were first listed. */
  function FirstSeen(entries: seq<Entry>): seq<string> {
    if entries == [] then []
    else
      var last := entries[|entries| - 1];
      var before := FirstSeen(entries[..|entries| - 1]);
      if last.key.Some? && last.key.value != "" && last.key.value !in before then before + [last.key.value] else before
  }

  predicate Distinct(order: seq<string>) { forall i, j :: 0 <= i < j < |order| ==> order[i] != order[j] }

  /** However the listing is cut into pages and whatever is listed twice, every key is downloaded
      from exactly one place in the order. */
  lemma {:induction false} EveryKeyIsSeenOnce(entries: seq<Entry>)
    ensures Distinct(FirstSeen(entries)) && forall k :: k in FirstSeen(entries) <==> k in Listed(entries)
  {
    if entries == [] {
    } else {
      EveryKeyIsSeenOnce(entries[..|entries| - 1]);
    }
  }

  class VaultSync {
    var files: Option<Files>
    var last: Option<Listing>

    ghost function View(): Local reads this { Local(files, last) }

    constructor () ensures View() == Local(None, None) { files, last := None, None; }

    /** Every page of the listing, as one dictionary and the order its keys were first seen in. */
    method ListVaultObjects(pages: seq<seq<Entry>>) returns (listing: Listing, order: seq<string>)
      ensures listing == Listed(Flatten(pages)) && order == FirstSeen(Flatten(pages))
    {
      listing, order := map[], [];
      ghost var before: seq<Entry> := [];
      for p := 0 to |pages|
        invariant before == Flatten(pages[..p])
        invariant listing == Listed(before) && order == FirstSeen(before)
      {
        listing, order := AddPage(pages[p], listing, order, before);
        before := before + pages[p];
        assert pages[..p + 1][..p] == pages[..p];
      }
      assert pages[..|pages|] == pages;
    }

    method AddPage(page: seq<Entry>, listing: Listing, order: seq<string>, ghost before: seq<Entry>)
      returns (listing': Listing, order': seq<string>)
      requires listing == Listed(before) && order == FirstSeen(before)
      ensures listing' == Listed(before + page) && order' == FirstSeen(before + page)
    {
      listing', order' := listing, order;
      assert before + page[..0] == before;
      for i := 0 to |page|
        invariant listing' == Listed(before + page[..i]) && order' == FirstSeen(before + page[..i])
      {
        ghost var more := before + page[..i + 1];
        assert more[..|more| - 1] == before + page[..i];
        var e := page[i];
        if e.key.Some? && e.key.value != "" {
          EveryKeyIsSeenOnce(before + page[..i]);
          if e.key.value !in listing' { order' := order' + [e.key.value]; }
          listing' := listing'[e.key.value := e.etag];
        }
      }
      assert page[..|page|] == page;
    }

    method SyncFromS3(listing: Listing, order: seq<string>, fetch: string -> Option<string>) returns (ok: bool)
      modifies this
      ensures (View(), ok) == Synced(old(View()), listing, order, fetch)
    {
      var etagsAvailable := EtagsAvailable(listing);
      if etagsAvailable && Some(listing) == last && files.Some? {
        return true;
      }
      ResetDest();
      ghost var goal := Download(files.value, order, fetch);
      ghost var was := last;
      for k := 0 to |order|
        invariant files.Some? && last == was && Download(files.value, order[k..], fetch) == goal
      {
        assert order[k..][1..] == order[k + 1..];
        if !Wanted(order[k]) {
          continue;
        }
        var body := fetch(order[k]);
        if body == None {
          return false;
        }
        files := Some(files.value[Rel(order[k]) := body.value]);
      }
      if etagsAvailable {
        last := Some(listing);
      }
      ok := true;
    }

    /** A whole sync: list, then skip or reset and download. */
    method SyncPages(pages: seq<seq<Entry>>, fetch: string -> Option<string>) returns (ok: bool)
      modifies this
      ensures var entries := Flatten(pages);
        (View(), ok) == Synced(old(View()), Listed(entries), FirstSeen(entries), fetch)
    {
      var listing, order := ListVaultObjects(pages);
      ok := SyncFromS3(listing, order, fetch);
    }

    method ResetDest()
      modifies this`files
      ensures files == Some(Preserved(old(files)))
    {
      var preserved: Files := map[];
      if files.Some? && PROFILE in files.value {
        preserved := map[PROFILE := files.value[PROFILE]];
      }
      files := Some(preserved);
    }
  }

  // --- the bucket and a run of sections -------------------------------------------------------------

  datatype Object = Object(etag: Option<string>, body: string)

  type Bucket = map<string, Object>

  predicate Honest(key: string, o: Object) {
    PREFIX <= key && key != "" && (o.etag.Some? ==> o.body == Version(key, o.etag.value))
  }

  function ListingOf(b: Bucket): Listing { map k | k in b :: b[k].etag }

  /** The folder and the bucket, and whether the last sync that reset the folder completed with ETags and
      no note has been written into the folder since. */
  datatype World = World(bucket: Bucket, local: Local, clean: bool)

  /** A sync lists the bucket as it is; `served` is what its downloads then get, which may be anything,
      for the bucket can change meanwhile. A key that is not served fails. A write puts any file into the
      folder, as the recording of a preference and the tool write_user_note do. */
  datatype Action =
    | Put(key: string, object: Object)
    | Remove(key: string)
    | Sync(order: seq<string>, served: Bodies)
    | Write(rel: string, body: string)

  function Fetch(served: Bodies): string -> Option<string> {
    k => if k in served then Some(served[k]) else None
  }

  /** Whatever was served is what was listed. */
  predicate Genuine(b: Bucket, served: Bodies) { forall k :: k in served ==> GenuineAt(b, served, k) }

  predicate GenuineAt(b: Bucket, served: Bodies, k: string) {
    k in served ==> k in b && served[k] == b[k].body
  }

  ghost predicate Enabled(w: World, a: Action) {
    match a
    case Put(k, o) => Honest(k, o)
    case Remove(_) => true
    case Sync(order, _) => Orders(order, w.bucket)
    case Write(_, _) => true
  }

  /** The bucket's keys, each once. */
  ghost predicate Orders(order: seq<string>, b: Bucket) { (forall k :: k in order <==> k in b) && Distinct(order) }

  function Step(w: World, a: Action): World
    requires Enabled(w, a)
  {
    match a
    case Put(k, o) => w.(bucket := w.bucket[k := o])
    case Remove(k) => w.(bucket := w.bucket - {k})
    case Sync(order, served) =>
      var listing := ListingOf(w.bucket);
      var (local, ok) := Synced(w.local, listing, order, Fetch(served));
      World(w.bucket, local, if Skips(w.local, listing) then w.clean else ok && EtagsAvailable(listing))
    case Write(rel, body) =>
      var files := if w.local.files.Some? then w.local.files.value else map[];
      w.(local := w.local.(files := Some(files[rel := body])), clean := w.clean && rel == PROFILE)
  }

  /** Apart from the profile, the folder holds exactly the bucket's notes. */
  ghost predicate Mirrors(files: Files, b: Bucket) {
    forall r :: r != PROFILE ==>
      (r in files <==> PREFIX + r in b && Wanted(PREFIX + r)) && (r in files ==> files[r] == b[PREFIX + r].body)
  }

  /** Apart from the profile, the folder holds exactly the notes of this listing, at those versions. */
  ghost predicate Holds(files: Files, listing: Listing) {
    forall r :: r != PROFILE ==>
      (r in files <==> PREFIX + r in listing && Wanted(PREFIX + r))
      && (r in files && listing[PREFIX + r].Some? ==> files[r] == Version(PREFIX + r, listing[PREFIX + r].value))
  }

  predicate HonestBucket(b: Bucket) { forall k :: k in b ==> Honest(k, b[k]) }

  ghost predicate Inv(w: World) {
    && HonestBucket(w.bucket)
    && (w.clean && w.local.last.Some? ==> w.local.files.Some? && Holds(w.local.files.value, w.local.last.value))
  }

  predicate Prefixed(order: seq<string>) { forall i :: 0 <= i < |order| ==> PREFIX <= order[i] }

  lemma OrdersArePrefixed(order: seq<string>, b: Bucket)
    requires HonestBucket(b) && Orders(order, b)
    ensures Prefixed(order)
  {
    forall i | 0 <= i < |order| ensures PREFIX <= order[i] {
      assert order[i] in b && Honest(order[i], b[order[i]]);
    }
  }

  lemma {:induction false} DownloadWrites(files: Files, order: seq<string>, served: Bodies)
    requires Prefixed(order) && Distinct(order) && Download(files, order, Fetch(served)).1
    ensures var out := Download(files, order, Fetch(served)).0;
      && (forall k :: k in order && Wanted(k) ==> k in served)
      && (forall r :: r in out <==> r in files || (PREFIX + r in order && Wanted(PREFIX + r)))
      && (forall r :: r in out ==>
            out[r] == if PREFIX + r in order && Wanted(PREFIX + r) then served[PREFIX + r] else files[r])
    decreases |order|
  {
    if order == [] {
    } else {
      var key, rest := order[0], order[1..];
      assert key in order && PREFIX + Rel(key) == key;
      var next := if Wanted(key) then files[Rel(key) := served[key]] else files;
      DownloadWrites(next, rest, served);
      forall r ensures PREFIX + r in order <==> r == Rel(key) || PREFIX + r in rest {
        assert PREFIX + r == key ==> r == key[|PREFIX|..];
      }
      assert key !in rest;
    }
  }

  /** A sync that resets the folder and completes with what it listed leaves exactly the listed notes. */
  lemma FullSyncMirrors(w: World, order: seq<string>, served: Bodies)
    requires HonestBucket(w.bucket) && Orders(order, w.bucket) && Genuine(w.bucket, served)
    requires !Skips(w.local, ListingOf(w.bucket)) && Synced(w.local, ListingOf(w.bucket), order, Fetch(served)).1
    ensures var files := Step(w, Sync(order, served)).local.files;
      files.Some? && Mirrors(files.value, w.bucket)
  {
    OrdersArePrefixed(order, w.bucket);
    DownloadWrites(Preserved(w.local.files), order, served);
  }

  lemma StepKeepsInv(w: World, a: Action)
    requires Inv(w) && Enabled(w, a) && (a.Sync? ==> Genuine(w.bucket, a.served))
    ensures Inv(Step(w, a))
  {
    if a.Sync? && !Skips(w.local, ListingOf(w.bucket)) && Step(w, a).clean {
      FullSyncMirrors(w, a.order, a.served);
    }
  }

  /** The shortcut refines a full resync: as long as the last sync that reset the folder completed
      with ETags and no note was written since, any sync that succeeds - skipped or not - leaves the notes
      a reset and download would leave. */
  lemma SyncMirrorsTheBucket(w: World, order: seq<string>, served: Bodies)
    requires Inv(w) && w.clean && Orders(order, w.bucket) && Genuine(w.bucket, served)
    requires Synced(w.local, ListingOf(w.bucket), order, Fetch(served)).1
    ensures var w' := Step(w, Sync(order, served));
      w'.local.files.Some? && Mirrors(w'.local.files.value, w.bucket)
  {
    if !Skips(w.local, ListingOf(w.bucket)) { FullSyncMirrors(w, order, served); }
  }

  /** A step of the kind the shortcut relies on: syncs list something, with ETags, and complete with
      what they listed, and nothing but the profile is written into the folder. */
  ghost predicate Good(w: World, a: Action) {
    Enabled(w, a) && (a.Write? ==> a.rel == PROFILE) && (a.Sync? ==>
      && EtagsAvailable(ListingOf(w.bucket)) && Genuine(w.bucket, a.served)
      && Synced(w.local, ListingOf(w.bucket), a.order, Fetch(a.served)).1)
  }

  const BEGIN := World(map[], Local(None, None), true)

  ghost function After(actions: seq<Action>): Option<World>
    decreases |actions|
  {
    if actions == [] then Some(BEGIN)
    else
      var n := |actions| - 1;
      match After(actions[..n])
      case None => None
      case Some(w) => if Good(w, actions[n]) then Some(Step(w, actions[n])) else None
  }

  lemma {:induction false} GoodRunsStayClean(actions: seq<Action>)
    ensures match After(actions) case None => true case Some(w) => Inv(w) && w.clean
    decreases |actions|
  {
    if actions != [] {
      var n := |actions| - 1;
      GoodRunsStayClean(actions[..n]);
      match After(actions[..n])
      case None =>
      case Some(w) => if Good(w, actions[n]) { StepKeepsInv(w, actions[n]); }
    }
  }

  /** Over any run of edits, profile writes and good syncs, every sync leaves the folder as a reset
      and full download would. */
  lemma EverySyncMirrors(actions: seq<Action>, w: World)
    requires actions != [] && actions[|actions| - 1].Sync? && After(actions) == Some(w)
    ensures w.local.files.Some? && Mirrors(w.local.files.value, w.bucket)
  {
    var n := |actions| - 1;
    GoodRunsStayClean(actions[..n]);
    SyncMirrorsTheBucket(After(actions[..n]).value, actions[n].order, actions[n].served);
  }

  // --- where the shortcut fails ---------------------------------------------------------------------

  /** A note deleted and put back unchanged, with a sync of the empty bucket in between, is missing
      from the folder after a sync that reports success: the empty listing reset the folder without
      forgetting the older listing. */
  lemma DeletedAndRestoredIsLost(k: string, o: Object)
    requires Honest(k, o) && Wanted(k) && o.etag.Some? && o.etag.value != ""
    ensures var b := map[k := o]; var listing := ListingOf(b);
      var first := Synced(Local(None, None), listing, [k], Fetch(map[k := o.body])).0;
      var emptied := Synced(first, ListingOf(map[]), [], Fetch(map[])).0;
      var (last, ok) := Synced(emptied, listing, [k], Fetch(map[k := o.body]));
      && ok && first.files.value.Keys == {Rel(k)}
      && last.files.Some? && (Rel(k) != PROFILE ==> Rel(k) !in last.files.value)
  {
    var b := map[k := o];
    var listing := ListingOf(b);
    assert k in listing && listing == map[k := o.etag];
    assert EtagsAvailable(listing);
    assert ListingOf(map[]) == map[];
    assert [k][1..] == [];
    assert Download(map[], [k], Fetch(map[k := o.body])) == (map[Rel(k) := o.body], true);
  }

  // --- the profile ----------------------------------------------------------------------------------

  const PROFILE_KEY := PREFIX + PROFILE

  function Profile(v: Local): Option<string> {
    if v.files.Some? && PROFILE in v.files.value then Some(v.files.value[PROFILE]) else None
  }

  /** The local profile is the stored one. */
  predicate Agree(w: World) {
    && w.local.files.Some?
    && Profile(w.local) == if PROFILE_KEY in w.bucket then Some(w.bucket[PROFILE_KEY].body) else None
  }

  predicate AgreeOn(files: Files, b: Bucket) {
    (PROFILE in files <==> PROFILE_KEY in b) && (PROFILE in files ==> files[PROFILE] == b[PROFILE_KEY].body)
  }

  lemma ProfileIsWanted()
    ensures Wanted(PROFILE_KEY) && Rel(PROFILE_KEY) == PROFILE
  {
    assert PROFILE_KEY[|PREFIX|..] == PROFILE;
    assert PROFILE_KEY[|PROFILE_KEY| - 3..] == PROFILE[|PROFILE| - 3..] == SUFFIX;
  }

  lemma {:induction false} DownloadKeepsProfile(files: Files, order: seq<string>, b: Bucket, served: Bodies)
    requires Prefixed(order) && GenuineAt(b, served, PROFILE_KEY) && AgreeOn(files, b)
    ensures AgreeOn(Download(files, order, Fetch(served)).0, b)
    decreases |order|
  {
    if order == [] {
    } else {
      var key := order[0];
      assert key in order && PREFIX + Rel(key) == key;
      if Wanted(key) && key in served {
        DownloadKeepsProfile(files[Rel(key) := served[key]], order[1..], b, served);
      } else if !Wanted(key) {
        DownloadKeepsProfile(files, order[1..], b, served);
      }
    }
  }

  /** The sections that take the user's lock, edits of other notes, and the tool's writes into the folder,
      which take no lock and upload nothing. `Record` rewrites the local profile from what it reads there
      and uploads it. Only `Record` stores a profile, so a sync gets the one it listed; other notes may
      change while it downloads them. */
  datatype Section =
    | SyncNow(order: seq<string>, served: Bodies)
    | Record(update: Option<string> -> string, etag: Option<string>)
    | EditNote(key: string, object: Object)
    | RemoveNote(key: string)
    | WriteNote(rel: string, body: string)

  ghost predicate Possible(w: World, s: Section) {
    match s
    case SyncNow(order, served) => Enabled(w, Sync(order, served)) && GenuineAt(w.bucket, served, PROFILE_KEY)
    case Record(update, etag) => Honest(PROFILE_KEY, Object(etag, update(Profile(w.local))))
    case EditNote(k, o) => Honest(k, o) && k != PROFILE_KEY
    case RemoveNote(k) => k != PROFILE_KEY
    case WriteNote(_, _) => true
  }

  function Do(w: World, s: Section): World
    requires Possible(w, s)
  {
    match s
    case SyncNow(order, served) => Step(w, Sync(order, served))
    case Record(update, etag) =>
      var body := update(Profile(w.local));
      Step(Step(w, Write(PROFILE, body)), Put(PROFILE_KEY, Object(etag, body)))
    case EditNote(k, o) => Step(w, Put(k, o))
    case RemoveNote(k) => Step(w, Remove(k))
    case WriteNote(rel, body) => Step(w, Write(rel, body))
  }

  ghost function DoAll(w: World, sections: seq<Section>): Option<World>
    decreases |sections|
  {
    if sections == [] then Some(w)
    else
      var n := |sections| - 1;
      match DoAll(w, sections[..n])
      case None => None
      case Some(v) => if Possible(v, sections[n]) then Some(Do(v, sections[n])) else None
  }

  /** Every recorded update, applied in order to what there was at first. */
  function Recorded(first: Option<string>, sections: seq<Section>): Option<string> {
    if sections == [] then first
    else
      var n := |sections| - 1;
      var before := Recorded(first, sections[..n]);
      if sections[n].Record? then Some(sections[n].update(before)) else before
  }

  /** The tool writes another profile than the one there is. */
  predicate ChangesProfile(w: World, s: Section) {
    s.WriteNote? && s.rel == PROFILE && Profile(w.local) != Some(s.body)
  }

  /** A step keeps local and stored profile equal if and only if it is not such a write; then a recording
      applies its update, and nothing else changes the profile. */
  lemma SectionKeepsProfile(w: World, s: Section)
    requires HonestBucket(w.bucket) && Agree(w) && Possible(w, s)
    ensures var w' := Do(w, s);
      && HonestBucket(w'.bucket) && (Agree(w') <==> !ChangesProfile(w, s))
      && (Agree(w') ==> Profile(w'.local) == if s.Record? then Some(s.update(Profile(w.local))) else Profile(w.local))
  {
    if s.SyncNow? && !Skips(w.local, ListingOf(w.bucket)) {
      OrdersArePrefixed(s.order, w.bucket);
      DownloadKeepsProfile(Preserved(w.local.files), s.order, w.bucket, s.served);
    }
  }

  /** The tool writes no profile. */
  predicate SpareProfile(sections: seq<Section>) {
    forall i :: 0 <= i < |sections| && sections[i].WriteNote? ==> sections[i].rel != PROFILE
  }

  /** With uploads that succeed, no interleaving of locked syncs and recordings loses an update, even
      where syncs fail part-way or other notes change under them: the local profile is always every
      update so far, in order. */
  lemma {:induction false} NoUpdateIsLost(w: World, sections: seq<Section>, w': World)
    requires HonestBucket(w.bucket) && Agree(w) && DoAll(w, sections) == Some(w') && SpareProfile(sections)
    ensures HonestBucket(w'.bucket) && Agree(w') && Profile(w'.local) == Recorded(Profile(w.local), sections)
    decreases |sections|
  {
    if sections == [] {
    } else {
      var n := |sections| - 1;
      var v := DoAll(w, sections[..n]).value;
      NoUpdateIsLost(w, sections[..n], v);
      SectionKeepsProfile(v, sections[n]);
    }
  }

  lemma {:induction false} DownloadFetchesProfile(files: Files, order: seq<string>, served: Bodies)
    requires Prefixed(order) && Download(files, order, Fetch(served)).1
    ensures var out := Download(files, order, Fetch(served)).0;
      if PROFILE_KEY in order then PROFILE_KEY in served && PROFILE in out && out[PROFILE] == served[PROFILE_KEY]
      else (PROFILE in out <==> PROFILE in files) && (PROFILE in out ==> out[PROFILE] == files[PROFILE])
    decreases |order|
  {
    ProfileIsWanted();
    if order == [] {
    } else {
      var key := order[0];
      assert key in order && PREFIX + Rel(key) == key;
      var next := if Wanted(key) then files[Rel(key) := served[key]] else files;
      DownloadFetchesProfile(next, order[1..], served);
    }
  }

  /** A first sync into an empty process makes the two agree. */
  lemma FirstSyncAgrees(b: Bucket, order: seq<string>, served: Bodies)
    requires HonestBucket(b) && Orders(order, b) && GenuineAt(b, served, PROFILE_KEY)
    requires Synced(Local(None, None), ListingOf(b), order, Fetch(served)).1
    ensures Agree(Step(World(b, Local(None, None), true), Sync(order, served)))
  {
    OrdersArePrefixed(order, b);
    DownloadFetchesProfile(map[], order, served);
  }

  /** Without an upload an update survives a completed reset exactly when the bucket has no other
      profile to put in its place. */
  lemma ProfileSurvivesResetIff(w: World, order: seq<string>, served: Bodies)
    requires HonestBucket(w.bucket) && Orders(order, w.bucket) && GenuineAt(w.bucket, served, PROFILE_KEY)
    requires !Skips(w.local, ListingOf(w.bucket)) && Synced(w.local, ListingOf(w.bucket), order, Fetch(served)).1
    requires Profile(w.local).Some?
    ensures Profile(Step(w, Sync(order, served)).local) == Profile(w.local) <==>
      PROFILE_KEY !in w.bucket || Some(w.bucket[PROFILE_KEY].body) == Profile(w.local)
  {
    OrdersArePrefixed(order, w.bucket);
    DownloadFetchesProfile(Preserved(w.local.files), order, served);
  }
}
