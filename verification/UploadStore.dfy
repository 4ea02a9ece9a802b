/**
 * Storing an uploaded file (services/uploads.py, unique_target and store_stream) in a directory kept
 * as a map from names to contents. One upload runs at a time.
 */
module UploadStore {
  import opened Calls
  import opened Utf8
  import opened UploadNames

  /** Set by the deployment. */
  const MAX_UPLOAD_BYTES: int

  const PART_SUFFIX := ".part"

  type Bytes = seq<byte>
  type Dir = map<string, Bytes>

  // --- the first free name --------------------------------------------------------------------------

  function Decimal(n: nat): (text: string)
    ensures text != "" && forall i :: 0 <= i < |text| ==> '0' <= text[i] <= '9'
  {
    var last := [(48 + n % 10) as char];
    if n < 10 then last else Decimal(n / 10) + last
  }

  /** Where the last dot splits a name, as `Path.stem` and `Path.suffix` do. */
  function LastDot(s: string): (i: nat)
    ensures i <= |s|
    decreases |s|
  {
    if s == "" then 0
    else if s[|s| - 1] == '.' then |s| - 1
    else if LastDot(s[..|s| - 1]) == |s| - 1 then |s|
    else LastDot(s[..|s| - 1])
  }

  function SplitAt(s: string): (i: nat)
    ensures i <= |s|
  {
    if 0 < LastDot(s) < |s| - 1 then LastDot(s) else |s|
  }

  /** The names tried, from 1: the name itself, then "stem (2).suffix" and so on. */
  function Candidate(name: string, n: nat): string {
    if n <= 1 then name else name[..SplitAt(name)] + " (" + Decimal(n) + ")" + name[SplitAt(name)..]
  }

  const LAST_TRY := 999

  /** The `n`th candidate is free and those before it are not. */
  predicate FreeFirst(dir: Dir, name: string, n: int) {
    1 <= n <= LAST_TRY && Candidate(name, n) !in dir && forall m :: 1 <= m < n ==> Candidate(name, m) in dir
  }

  /** The first free candidate, or None for the 409 refusal. */
  method UniqueTarget(dir: Dir, name: string) returns (target: Option<string>)
    ensures target == FirstFree(dir, name, 1)
  {
    if name !in dir {
      return Some(name);
    }
    for n := 2 to LAST_TRY + 1
      invariant FirstFree(dir, name, n) == FirstFree(dir, name, 1)
    {
      if Candidate(name, n) !in dir {
        return Some(Candidate(name, n));
      }
    }
    return None;
  }

  function FirstFree(dir: Dir, name: string, n: nat): (target: Option<string>)
    ensures target.Some? ==> target.value !in dir
    decreases LAST_TRY + 1 - n
  {
    if n > LAST_TRY then None
    else if Candidate(name, n) !in dir then Some(Candidate(name, n))
    else FirstFree(dir, name, n + 1)
  }

  /** An upload never overwrites: it gets the first name of the series that no file has, and none
      only if all are taken. */
  lemma {:induction false} FirstFreeIsFirst(dir: Dir, name: string, n: nat)
    requires 1 <= n <= LAST_TRY + 1 && forall m :: 1 <= m < n ==> Candidate(name, m) in dir
    ensures match FirstFree(dir, name, n)
      case Some(t) => exists k :: FreeFirst(dir, name, k) && t == Candidate(name, k)
      case None => forall m :: 1 <= m <= LAST_TRY ==> Candidate(name, m) in dir
    decreases LAST_TRY + 1 - n
  {
    if n <= LAST_TRY {
      if Candidate(name, n) in dir { FirstFreeIsFirst(dir, name, n + 1); } else { assert FreeFirst(dir, name, n); }
    }
  }

  lemma {:induction false} DecimalsDiffer(n: nat, m: nat)
    ensures Decimal(n) == Decimal(m) <==> n == m
    decreases n + m
  {
    if n >= 10 && m >= 10 {
      DecimalsDiffer(n / 10, m / 10);
      var a, b := Decimal(n), Decimal(m);
      assert a[..|a| - 1] == Decimal(n / 10) && b[..|b| - 1] == Decimal(m / 10);
      assert a[|a| - 1] == (48 + n % 10) as char && b[|b| - 1] == (48 + m % 10) as char;
    } else if n < 10 && m < 10 {
      assert Decimal(n)[0] == (48 + n) as char && Decimal(m)[0] == (48 + m) as char;
    }
  }

  lemma CandidatesDiffer(name: string, n: nat, m: nat)
    requires 1 <= n < m
    ensures Candidate(name, n) != Candidate(name, m)
  {
    var i := SplitAt(name);
    var stem, suffix := name[..i], name[i..];
    var c, d := Candidate(name, n), Candidate(name, m);
    assert name == stem + suffix;
    if c == d {
      Unwrapped(stem, Decimal(m), suffix);
      if n > 1 {
        DecimalsDiffer(n, m);
        Unwrapped(stem, Decimal(n), suffix);
      }
    }
  }

  lemma Unwrapped(stem: string, number: string, suffix: string)
    ensures var s := stem + " (" + number + ")" + suffix;
      |s| >= |stem| + |suffix| + 3 && s[|stem| + 2..|s| - |suffix| - 1] == number
  {
  }

  function Tried(name: string, n: nat): set<string> {
    if n == 0 then {} else Tried(name, n - 1) + {Candidate(name, n)}
  }

  lemma {:induction false} LaterIsUntried(name: string, n: nat, k: nat)
    requires n < k
    ensures Candidate(name, k) !in Tried(name, n)
  {
    if n > 0 {
      LaterIsUntried(name, n - 1, k);
      CandidatesDiffer(name, n, k);
    }
  }

  lemma {:induction false} TriedAreTaken(dir: Dir, name: string, n: nat)
    requires n <= LAST_TRY && forall m :: 1 <= m <= LAST_TRY ==> Candidate(name, m) in dir
    ensures Tried(name, n) <= dir.Keys && |Tried(name, n)| == n
  {
    if n > 0 {
      TriedAreTaken(dir, name, n - 1);
      LaterIsUntried(name, n - 1, n);
    }
  }

  /** "Too many files with that name" is only ever said of a directory that has 999 of them. */
  lemma RefusalMeansFull(dir: Dir, name: string)
    requires FirstFree(dir, name, 1) == None
    ensures |dir| >= LAST_TRY
  {
    FirstFreeIsFirst(dir, name, 1);
    TriedAreTaken(dir, name, LAST_TRY);
    SubsetIsSmaller(Tried(name, LAST_TRY), dir.Keys);
  }

  lemma {:induction false} SubsetIsSmaller(a: set<string>, b: set<string>)
    requires a <= b
    ensures |a| <= |b|
  {
    if a != {} {
      var x :| x in a;
      SubsetIsSmaller(a - {x}, b - {x});
    }
  }

  // --- the stream -----------------------------------------------------------------------------------

  /** One chunk of the body, and whether writing it succeeds. */
  datatype Chunk = Chunk(bytes: Bytes, writes: bool)

  /** How the body ends after its chunks: normally, with an error, or because the request is
      cancelled - which `except Exception` does not see. */
  datatype Ending = Ends | Breaks | Cancelled

  datatype Result =
    | Stored(storedAs: string, rewritten: bool, size: int)
    | Refused(status: int)
    | Abandoned

  /** Where writing stops: everything written, over the cap, broken, or cut off after some bytes. */
  datatype Written = All(bytes: Bytes) | OverCap | Broken | CutOff(bytes: Bytes)

  function Write(chunks: seq<Chunk>, ending: Ending, sofar: Bytes): Written
    decreases |chunks|
  {
    if chunks == [] then (match ending case Ends => All(sofar) case Breaks => Broken case Cancelled => CutOff(sofar))
    else if chunks[0].bytes == [] then Write(chunks[1..], ending, sofar)
    else if |sofar| + |chunks[0].bytes| > MAX_UPLOAD_BYTES then OverCap
    else if !chunks[0].writes then Broken
    else Write(chunks[1..], ending, sofar + chunks[0].bytes)
  }

  function Body(chunks: seq<Chunk>): Bytes {
    if chunks == [] then [] else chunks[0].bytes + Body(chunks[1..])
  }

  predicate AllWrite(chunks: seq<Chunk>) { forall i :: 0 <= i < |chunks| && chunks[i].bytes != [] ==> chunks[i].writes }

  /** The whole body is written exactly when it ends, nothing fails and it fits the cap; and what is
      written then is the body. */
  lemma {:induction false} WritesAllIff(chunks: seq<Chunk>, ending: Ending, sofar: Bytes)
    requires sofar == [] || |sofar| <= MAX_UPLOAD_BYTES
    ensures Write(chunks, ending, sofar).All? <==>
      ending == Ends && AllWrite(chunks) && (Body(chunks) == [] || |sofar + Body(chunks)| <= MAX_UPLOAD_BYTES)
    ensures Write(chunks, ending, sofar).All? ==> Write(chunks, ending, sofar).bytes == sofar + Body(chunks)
    decreases |chunks|
  {
    if chunks == [] {
      assert sofar + Body(chunks) == sofar;
    } else {
      var c, rest := chunks[0], chunks[1..];
      assert AllWrite(chunks) <==> (c.bytes != [] ==> c.writes) && AllWrite(rest);
      if c.bytes == [] {
        WritesAllIff(rest, ending, sofar);
        assert Body(chunks) == Body(rest);
      } else if |sofar| + |c.bytes| <= MAX_UPLOAD_BYTES && c.writes {
        WritesAllIff(rest, ending, sofar + c.bytes);
        assert sofar + c.bytes + Body(rest) == sofar + Body(chunks);
      }
    }
  }

  /** From the partial file to the stored one. */
  function Finish(dir: Dir, target: string, rewritten: bool, w: Written): (Dir, Result) {
    var part := target + PART_SUFFIX;
    match w
    case OverCap => (dir - {part}, Refused(413))
    case Broken => (dir - {part}, Refused(500))
    case CutOff(bytes) => (dir[part := bytes], Abandoned)
    case All(bytes) =>
      if bytes == [] then (dir - {part}, Refused(400))
      else ((dir - {part})[target := bytes], Stored(target, rewritten, |bytes|))
  }

  /** The directory and the answer after an upload. */
  function Outcome(dir: Dir, filename: string, room: bool, opens: bool, chunks: seq<Chunk>, ending: Ending)
    : (Dir, Result)
  {
    OutcomeUnder(dir, SafeName(filename), !Fine(filename), room, opens, chunks, ending)
  }

  function OutcomeUnder(dir: Dir, name: string, rewritten: bool, room: bool, opens: bool,
                        chunks: seq<Chunk>, ending: Ending)
    : (Dir, Result)
  {
    if SENTINEL !in dir then (dir, Refused(503))
    else if !room then (dir, Refused(507))
    else match FirstFree(dir, name, 1)
      case None => (dir, Refused(409))
      case Some(target) =>
        if !opens then (dir - {target + PART_SUFFIX}, Refused(500))
        else Finish(dir, target, rewritten || target != name, Write(chunks, ending, []))
  }

  class UploadDir {
    var files: Dir

    constructor (files: Dir) ensures this.files == files { this.files := files; }

    /** `opens` says whether the partial file can be opened. */
    method StoreStream(filename: string, room: bool, opens: bool, chunks: seq<Chunk>, ending: Ending)
      returns (r: Result)
      modifies this
      ensures (files, r) == Outcome(old(files), filename, room, opens, chunks, ending)
    {
      if SENTINEL !in files {
        return Refused(503);
      }
      if !room {
        return Refused(507);
      }
      var name, rewritten := Harden(filename);
      var target := UniqueTarget(files, name);
      if target == None {
        return Refused(409);
      }
      var part := target.value + PART_SUFFIX;
      if !opens {
        Unlink(part);
        return Refused(500);
      }
      r := Receive(target.value, rewritten || target.value != name, chunks, ending);
    }

    /** From opening the partial file to renaming it. */
    method Receive(target: string, rewritten: bool, chunks: seq<Chunk>, ending: Ending) returns (r: Result)
      requires target !in files
      modifies this
      ensures (files, r) == Finish(old(files), target, rewritten, Write(chunks, ending, []))
    {
      var part := target + PART_SUFFIX;
      ghost var kept := files;
      var w := WriteChunks(part, chunks, ending);
      assert files - {part} == kept - {part};
      match w
      case OverCap =>
        Unlink(part);
        r := Refused(413);
      case Broken =>
        Unlink(part);
        r := Refused(500);
      case CutOff(bytes) =>
        r := Abandoned;
      case All(bytes) =>
        if bytes == [] {
          Unlink(part);
          return Refused(400);
        }
        files := (files - {part})[target := files[part]];
        r := Stored(target, rewritten, |bytes|);
    }

    /** The loop over the body. `w` says how it was left: at its end, or by which exception. */
    method WriteChunks(part: string, chunks: seq<Chunk>, ending: Ending) returns (w: Written)
      modifies this
      ensures w == Write(chunks, ending, [])
      ensures part in files && files == old(files)[part := files[part]]
      ensures w.All? || w.CutOff? ==> files[part] == w.bytes
    {
      ghost var kept := files;
      files := files[part := []];
      var written := 0;
      for i := 0 to |chunks|
        invariant part in files && files == kept[part := files[part]] && written == |files[part]|
        invariant Write(chunks[i..], ending, files[part]) == Write(chunks, ending, [])
      {
        assert chunks[i..][0] == chunks[i] && chunks[i..][1..] == chunks[i + 1..];
        var chunk := chunks[i];
        if chunk.bytes == [] {
          continue;
        }
        written := written + |chunk.bytes|;
        if written > MAX_UPLOAD_BYTES {
          return OverCap;
        }
        if !chunk.writes {
          return Broken;
        }
        files := files[part := files[part] + chunk.bytes];
      }
      w := match ending case Ends => All(files[part]) case Breaks => Broken case Cancelled => CutOff(files[part]);
    }

    method Unlink(name: string)
      modifies this
      ensures files == old(files) - {name}
    {
      files := files - {name};
    }
  }

  // --- what an upload does --------------------------------------------------------------------------

  /** Every file of `dir` is still there with its contents. */
  predicate KeepsAllBut(dir: Dir, dir': Dir, lost: set<string>) {
    forall f :: f in dir && f !in lost ==> f in dir' && dir'[f] == dir[f]
  }

  /** The partial file an upload would use, if it gets that far. */
  function PartOf(dir: Dir, name: string): set<string> {
    match FirstFree(dir, name, 1)
    case None => {}
    case Some(target) => {target + PART_SUFFIX}
  }

  /** What became of a directory in which `part` was used. */
  predicate Exact(dir: Dir, out: (Dir, Result), part: set<string>, body: Bytes, ending: Ending) {
    && KeepsAllBut(dir, out.0, part)
    && match out.1
       case Stored(name, _, size) =>
         name !in dir && out.0 == (dir - part)[name := body] && size == |body| && 0 < size <= MAX_UPLOAD_BYTES
       case Refused(_) => out.0 == dir || out.0 == dir - part
       case Abandoned => ending == Cancelled && out.0.Keys == dir.Keys + part
  }

  predicate Faithful(w: Written, body: Bytes, ending: Ending) {
    && (w.All? ==> w.bytes == body && (body == [] || |body| <= MAX_UPLOAD_BYTES))
    && (w.CutOff? ==> ending == Cancelled)
  }

  lemma WriteIsFaithful(chunks: seq<Chunk>, ending: Ending)
    ensures Faithful(Write(chunks, ending, []), Body(chunks), ending)
  {
    WritesAllIff(chunks, ending, []);
    WrittenOnlyIfCut(chunks, ending, []);
    assert [] + Body(chunks) == Body(chunks);
  }

  lemma FinishIsExact(dir: Dir, target: string, rewritten: bool, w: Written, body: Bytes, ending: Ending)
    requires target !in dir && Faithful(w, body, ending)
    ensures Exact(dir, Finish(dir, target, rewritten, w), {target + PART_SUFFIX}, body, ending)
  {
  }

  lemma UploadUnderIsExact(dir: Dir, name: string, rewritten: bool, room: bool, opens: bool,
                           chunks: seq<Chunk>, ending: Ending)
    ensures var out := OutcomeUnder(dir, name, rewritten, room, opens, chunks, ending);
      Exact(dir, out, PartOf(dir, name), Body(chunks), ending)
  {
    var free := FirstFree(dir, name, 1);
    if free.Some? {
      WriteIsFaithful(chunks, ending);
      FinishIsExact(dir, free.value, rewritten || free.value != name, Write(chunks, ending, []), Body(chunks), ending);
    }
  }

  /** Whatever happens, no file but the partial one is touched. A stored upload adds one new file
      under a free name, holding exactly the body, and no partial file; a refused one adds nothing;
      only a cancelled one leaves its partial file behind. */
  lemma UploadIsExact(dir: Dir, filename: string, room: bool, opens: bool, chunks: seq<Chunk>, ending: Ending)
    ensures var out := Outcome(dir, filename, room, opens, chunks, ending);
      Exact(dir, out, PartOf(dir, SafeName(filename)), Body(chunks), ending)
  {
    UploadUnderIsExact(dir, SafeName(filename), !Fine(filename), room, opens, chunks, ending);
  }

  lemma {:induction false} WrittenOnlyIfCut(chunks: seq<Chunk>, ending: Ending, sofar: Bytes)
    ensures Write(chunks, ending, sofar).CutOff? ==> ending == Cancelled
    decreases |chunks|
  {
    if chunks != [] {
      WrittenOnlyIfCut(chunks[1..], ending, sofar);
      WrittenOnlyIfCut(chunks[1..], ending, sofar + chunks[0].bytes);
    }
  }

  /** An upload is stored exactly when the folder is ready, the name series has room, the body
      arrives and is written whole, and it is neither empty nor over the cap. */
  lemma StoredIff(dir: Dir, filename: string, room: bool, opens: bool, chunks: seq<Chunk>, ending: Ending)
    ensures Outcome(dir, filename, room, opens, chunks, ending).1.Stored? <==>
      && SENTINEL in dir && room && FirstFree(dir, SafeName(filename), 1).Some? && opens
      && ending == Ends && AllWrite(chunks) && 0 < |Body(chunks)| <= MAX_UPLOAD_BYTES
  {
    WritesAllIff(chunks, ending, []);
    assert [] + Body(chunks) == Body(chunks);
  }

  /** What a cancelled request leaves in its partial file, if it got to open one. */
  function CutShort(opens: bool, chunks: seq<Chunk>, ending: Ending): Option<Bytes> {
    var w := Write(chunks, ending, []);
    if opens && w.CutOff? then Some(w.bytes) else None
  }

  lemma UnderLosesNothingIff(dir: Dir, name: string, rewritten: bool, room: bool, opens: bool,
                             chunks: seq<Chunk>, ending: Ending)
    ensures KeepsAllBut(dir, OutcomeUnder(dir, name, rewritten, room, opens, chunks, ending).0, {}) <==>
      || !(SENTINEL in dir && room)
      || forall p :: p in PartOf(dir, name) && p in dir ==> CutShort(opens, chunks, ending) == Some(dir[p])
  {
    var free := FirstFree(dir, name, 1);
    if SENTINEL in dir && room && free.Some? {
      var dir' := OutcomeUnder(dir, name, rewritten, room, opens, chunks, ending).0;
      if opens {
        FinishLosesOnlyPart(dir, free.value, rewritten || free.value != name, Write(chunks, ending, []));
      }
      OnlyPartDecides(dir, dir', free.value + PART_SUFFIX, CutShort(opens, chunks, ending));
    }
  }

  lemma FinishLosesOnlyPart(dir: Dir, target: string, rewritten: bool, w: Written)
    requires target !in dir
    ensures var dir' := Finish(dir, target, rewritten, w).0; var part := target + PART_SUFFIX;
      && (forall f :: f in dir && f != part ==> f in dir' && dir'[f] == dir[f])
      && (if w.CutOff? then part in dir' && dir'[part] == w.bytes else part !in dir')
  {
    assert target != target + PART_SUFFIX;
  }

  lemma OnlyPartDecides(dir: Dir, dir': Dir, part: string, left: Option<Bytes>)
    requires forall f :: f in dir && f != part ==> f in dir' && dir'[f] == dir[f]
    requires match left case Some(bytes) => part in dir' && dir'[part] == bytes case None => part !in dir'
    ensures KeepsAllBut(dir, dir', {}) <==> (part in dir ==> left == Some(dir[part]))
  {
  }

  /** Nothing the user had is lost by an upload, on any path, if and only if it does not get as far as a
      partial file, or no file already had that name - or the request is cancelled just when the bytes
      written are that file's own. */
  lemma NothingIsLostIff(dir: Dir, filename: string, room: bool, opens: bool, chunks: seq<Chunk>, ending: Ending)
    ensures KeepsAllBut(dir, Outcome(dir, filename, room, opens, chunks, ending).0, {}) <==>
      || !(SENTINEL in dir && room)
      || forall p :: p in PartOf(dir, SafeName(filename)) && p in dir ==>
           CutShort(opens, chunks, ending) == Some(dir[p])
  {
    UnderLosesNothingIff(dir, SafeName(filename), !Fine(filename), room, opens, chunks, ending);
  }
}
