/**
 * What the profile holds after any run of syncs, recordings and edits under the user's lock:
 * the upsert of Preferences.dfy (orchestrator.py) over the snapshot of Vault.dfy
 * (services/storage_sync.py).
 */
module ProfileRuns {
  import opened Calls
  import Preferences
  import opened Vault

  /** `_record_preference` on what the profile holds; a missing file reads as "". */
  function Upsert(p: Preferences.Pref): Option<string> -> string {
    (was: Option<string>) => Preferences.Record(if was.Some? then was.value else "", p)
  }

  datatype Job =
    | Sync(order: seq<string>, served: Bodies)
    | Remember(pref: Preferences.Pref, etag: Option<string>)
    | Edit(key: string, object: Object)
    | Drop(key: string)
    | Note(rel: string, body: string)

  function SectionOf(j: Job): Section {
    match j
    case Sync(order, served) => SyncNow(order, served)
    case Remember(p, etag) => Record(Upsert(p), etag)
    case Edit(k, o) => EditNote(k, o)
    case Drop(k) => RemoveNote(k)
    case Note(rel, body) => WriteNote(rel, body)
  }

  function Sections(jobs: seq<Job>): (ss: seq<Section>)
    ensures |ss| == |jobs| && forall i :: 0 <= i < |jobs| ==> ss[i] == SectionOf(jobs[i])
  {
    seq(|jobs|, i requires 0 <= i < |jobs| => SectionOf(jobs[i]))
  }

  /** The preferences these jobs record, in order. */
  function Recordings(jobs: seq<Job>): seq<Preferences.Pref> {
    if jobs == [] then []
    else Recordings(jobs[..|jobs| - 1]) + (if jobs[|jobs| - 1].Remember? then [jobs[|jobs| - 1].pref] else [])
  }

  /** A profile that has been written with nothing but these recordings. */
  function FileOf(rs: seq<Preferences.Pref>): Option<string> {
    if rs == [] then None else Some(Preferences.FileAfter(rs))
  }

  lemma {:induction false} RecordedIsFileOf(before: seq<Preferences.Pref>, jobs: seq<Job>)
    ensures Recorded(FileOf(before), Sections(jobs)) == FileOf(before + Recordings(jobs))
    decreases |jobs|
  {
    if jobs == [] {
      assert before + Recordings(jobs) == before;
    } else {
      var n := |jobs| - 1;
      RecordedIsFileOf(before, jobs[..n]);
      LastJob(FileOf(before), jobs);
      LastRecording(before, jobs);
      if jobs[n].Remember? { OneMoreRecording(before + Recordings(jobs[..n]), jobs[n].pref); }
    }
  }

  lemma LastJob(first: Option<string>, jobs: seq<Job>)
    requires jobs != []
    ensures var n := |jobs| - 1; var was := Recorded(first, Sections(jobs[..n]));
      Recorded(first, Sections(jobs)) == if jobs[n].Remember? then Some(Upsert(jobs[n].pref)(was)) else was
  {
    assert Sections(jobs)[..|jobs| - 1] == Sections(jobs[..|jobs| - 1]);
  }

  lemma LastRecording(before: seq<Preferences.Pref>, jobs: seq<Job>)
    requires jobs != []
    ensures var n := |jobs| - 1; var rs := before + Recordings(jobs[..n]);
      before + Recordings(jobs) == if jobs[n].Remember? then rs + [jobs[n].pref] else rs
  {
    var n := |jobs| - 1;
    Regroup(before, Recordings(jobs[..n]), if jobs[n].Remember? then [jobs[n].pref] else []);
  }

  lemma Regroup<T>(a: seq<T>, b: seq<T>, c: seq<T>)
    ensures a + (b + c) == a + b + c && (c == [] ==> a + (b + c) == a + b)
  {
  }

  lemma OneMoreRecording(rs: seq<Preferences.Pref>, p: Preferences.Pref)
    ensures Some(Upsert(p)(FileOf(rs))) == FileOf(rs + [p])
  {
    assert (rs + [p])[..|rs|] == rs;
  }

  /** End to end: whatever syncs (complete or not), recordings and edits of other notes take the lock
      in whatever order, with uploads that succeed the local profile and the stored one agree, and
      hold exactly the last preference of every slot ever recorded, one bullet each. */
  lemma NothingRememberedIsLost(w: World, before: seq<Preferences.Pref>, jobs: seq<Job>, w': World)
    requires HonestBucket(w.bucket) && Agree(w) && Profile(w.local) == FileOf(before)
    requires DoAll(w, Sections(jobs)) == Some(w') && SpareProfile(Sections(jobs))
    requires var rs := before + Recordings(jobs);
      rs != [] && forall p :: p in rs ==> Preferences.Plain(p) && ':' !in p.key
    ensures var rs := before + Recordings(jobs);
      && Agree(w') && Profile(w'.local).Some?
      && Preferences.Bullets(Profile(w'.local).value) == Preferences.Lines(Preferences.Latest(rs))
      && Preferences.Distinct(Preferences.Latest(rs))
      && Preferences.Lists(Preferences.Latest(rs), Preferences.Remembered(rs))
  {
    NoUpdateIsLost(w, Sections(jobs), w');
    RecordedIsFileOf(before, jobs);
    Preferences.PlainKeysRefineAMap(before + Recordings(jobs));
  }
}
