/**
 * The names uploads are stored under and shown by (services/uploads.py): the numbered series of
 * `unique_target`, and the listing, which leaves out what looks like a partial file.
 */
module UploadListing {
  import opened Calls
  import opened UploadNames
  import opened UploadStore
  import opened Utf8

  // --- the numbered series --------------------------------------------------------------------------

  predicate EndsInPart(name: string) { |PART_SUFFIX| <= |name| && name[|name| - |PART_SUFFIX|..] == PART_SUFFIX }

  /** There is no dot from here on. */
  predicate NoDotFrom(s: string, i: int) { forall j :: 0 <= i <= j < |s| ==> s[j] != '.' }

  lemma {:induction false} LastDotIsLast(s: string)
    ensures NoDotFrom(s, LastDot(s) + 1) && (LastDot(s) < |s| ==> s[LastDot(s)] == '.')
    ensures LastDot(s) == |s| ==> NoDotFrom(s, 0)
    decreases |s|
  {
    if s != "" && s[|s| - 1] != '.' {
      LastDotIsLast(s[..|s| - 1]);
      assert forall j :: 0 <= j < |s| - 1 ==> s[..|s| - 1][j] == s[j];
    }
  }

  /** What the series keeps of a name: it ends in the same suffix, after a number in brackets. */
  lemma NumberedName(name: string, n: nat)
    requires n > 1
    ensures var i := SplitAt(name); var c := Candidate(name, n);
      && |c| == |name| + |Decimal(n)| + 3 && c[..i] == name[..i] && c[i..i + 2] == " ("
      && c[|c| - (|name| - i)..] == name[i..] && c[|c| - (|name| - i) - 1] == ')'
  {
  }

  /** A name in the series ends like a partial file's exactly when the name asked for does. */
  lemma PartNamesStayInTheSeries(name: string, n: nat)
    requires name != "" && name[0] != '.'
    ensures EndsInPart(Candidate(name, n)) <==> EndsInPart(name)
  {
    if n > 1 {
      var i, c := SplitAt(name), Candidate(name, n);
      NumberedName(name, n);
      LastDotIsLast(name);
      if EndsInPart(name) {
        var d := |name| - |PART_SUFFIX|;
        assert name[d] == name[d..][0] == '.';
        assert forall j :: d < j < |name| ==> name[j] == name[d..][j - d];
        assert i == d;
      } else if |name| - i >= |PART_SUFFIX| {
        assert c[|c| - |PART_SUFFIX|..] == name[|name| - |PART_SUFFIX|..];
      } else if EndsInPart(c) {
        SuffixIsShort(c, |name| - i);
      }
    }
  }

  /** ".part" has neither a bracket nor a second dot in it. */
  lemma SuffixIsShort(c: string, k: nat)
    requires EndsInPart(c) && k < |PART_SUFFIX|
    ensures c[|c| - k - 1] != ')' && (k > 0 ==> c[|c| - k] != '.')
  {
    assert c[|c| - k - 1] == c[|c| - |PART_SUFFIX|..][|PART_SUFFIX| - k - 1];
    if k > 0 { assert c[|c| - k] == c[|c| - |PART_SUFFIX|..][|PART_SUFFIX| - k]; }
  }

  lemma {:induction false} AsciiIsOneByteEach(s: string)
    requires forall i :: 0 <= i < |s| ==> s[i] < '\U{80}'
    ensures |Encode(s)| == |s|
  {
    if s != "" { AsciiIsOneByteEach(s[1..]); }
  }

  /** A number adds its digits, a space and two brackets to the bytes of a name. */
  lemma NumberedBytes(name: string, n: nat)
    requires n > 1
    ensures |Encode(Candidate(name, n))| == |Encode(name)| + 3 + |Decimal(n)|
  {
    var i := SplitAt(name);
    var stem, suffix, number := name[..i], name[i..], " (" + Decimal(n) + ")";
    assert name == stem + suffix;
    assert Candidate(name, n) == stem + number + suffix;
    EncodeConcat(stem, suffix);
    EncodeConcat(stem + number, suffix);
    EncodeConcat(stem, number);
    AsciiIsOneByteEach(number);
  }

  /** Everything promised of a hardened name holds of every name of its series but the byte limit, and
      that fails exactly when the number does not fit. */
  lemma SeriesIsOpenableIff(name: string, n: nat)
    requires Openable(name)
    ensures Openable(Candidate(name, n)) <==> n <= 1 || |Encode(name)| + 3 + |Decimal(n)| <= MAX_NAME_BYTES
  {
    if n > 1 {
      var c := Candidate(name, n);
      NumberedName(name, n);
      NumberedBytes(name, n);
      SeriesKeepsCharacters(name, n);
      assert SENTINEL[0] == '.';
    }
  }

  lemma SeriesKeepsCharacters(name: string, n: nat)
    requires n > 1 && Openable(name)
    ensures var c := Candidate(name, n);
      && c != "" && (forall i :: 0 <= i < |c| ==> !Illegal(c[i]) && c[i] != '/')
      && c[0] == name[0] && !Drops(c[|c| - 1])
  {
    var i, c := SplitAt(name), Candidate(name, n);
    NumberedName(name, n);
    assert i > 0;
    assert c == name[..i] + " (" + Decimal(n) + ")" + name[i..];
  }

  /** Which name of the series the search finds. */
  lemma NumberOf(dir: Dir, name: string) returns (n: nat)
    requires FirstFree(dir, name, 1).Some?
    ensures FreeFirst(dir, name, n) && FirstFree(dir, name, 1).value == Candidate(name, n)
  {
    FirstFreeIsFirst(dir, name, 1);
    n :| FreeFirst(dir, name, n) && FirstFree(dir, name, 1).value == Candidate(name, n);
  }

  lemma StoredUnderFirstFree(dir: Dir, filename: string, room: bool, opens: bool, chunks: seq<Chunk>, ending: Ending)
    ensures var r := Outcome(dir, filename, room, opens, chunks, ending).1;
      r.Stored? ==> FirstFree(dir, SafeName(filename), 1) == Some(r.storedAs)
  {
  }

  /** The name an upload is stored under is the first free one of the series, and can be opened exactly
      when its number, if it has one, still fits the byte limit. */
  lemma StoredNameIsOpenableIff(dir: Dir, filename: string, room: bool, opens: bool, chunks: seq<Chunk>, ending: Ending)
    returns (n: nat)
    requires Outcome(dir, filename, room, opens, chunks, ending).1.Stored?
    ensures var name := SafeName(filename);
      var stored := Outcome(dir, filename, room, opens, chunks, ending).1.storedAs;
      && FreeFirst(dir, name, n) && stored == Candidate(name, n)
      && (Openable(stored) <==> n == 1 || |Encode(name)| + 3 + |Decimal(n)| <= MAX_NAME_BYTES)
  {
    StoredUnderFirstFree(dir, filename, room, opens, chunks, ending);
    n := NumberOf(dir, SafeName(filename));
    SafeNameIsOpenable(filename);
    SeriesIsOpenableIff(SafeName(filename), n);
  }

  // --- the listing ----------------------------------------------------------------------------------

  /** The names `list_uploads` shows. */
  function Listed(dir: Dir): set<string> {
    set n | n in dir && n != SENTINEL && !EndsInPart(n)
  }

  function Shows(r: Result): set<string> { if r.Stored? && !EndsInPart(r.storedAs) then {r.storedAs} else {} }

  /** Everything is shown but the sentinel and what ends like a partial file. */
  lemma ListedAre(dir: Dir, n: string)
    ensures n in Listed(dir) <==>
      n in dir && n != ".uploads-root" && !(|n| >= 5 && n[|n| - 5..] == ".part")
  {
  }

  lemma PartEndsInPart(dir: Dir, name: string)
    ensures forall p :: p in PartOf(dir, name) ==> EndsInPart(p)
  {
  }

  lemma ExactIsListed(dir: Dir, out: (Dir, Result), part: set<string>, body: Bytes, ending: Ending)
    requires Exact(dir, out, part, body, ending) && (forall p :: p in part ==> EndsInPart(p))
    requires out.1.Stored? ==> SENTINEL in dir
    ensures Listed(out.0) == Listed(dir) + Shows(out.1)
  {
  }

  lemma UnderIsListed(dir: Dir, name: string, rewritten: bool, room: bool, opens: bool,
                      chunks: seq<Chunk>, ending: Ending)
    ensures var out := OutcomeUnder(dir, name, rewritten, room, opens, chunks, ending);
      Listed(out.0) == Listed(dir) + Shows(out.1)
  {
    UploadUnderIsExact(dir, name, rewritten, room, opens, chunks, ending);
    PartEndsInPart(dir, name);
    var out := OutcomeUnder(dir, name, rewritten, room, opens, chunks, ending);
    ExactIsListed(dir, out, PartOf(dir, name), Body(chunks), ending);
  }

  /** A stored upload appears in the listing if and only if the file name that was sent hardens to one
      that does not end like a partial file's; the listing changes in nothing else, and a refused or
      cancelled upload does not change it. */
  lemma StoredIsListedIff(dir: Dir, filename: string, room: bool, opens: bool, chunks: seq<Chunk>, ending: Ending)
    ensures var (dir', r) := Outcome(dir, filename, room, opens, chunks, ending);
      Listed(dir') == Listed(dir) + if r.Stored? && !EndsInPart(SafeName(filename)) then {r.storedAs} else {}
  {
    var name := SafeName(filename);
    var r := Outcome(dir, filename, room, opens, chunks, ending).1;
    UnderIsListed(dir, name, !Fine(filename), room, opens, chunks, ending);
    if r.Stored? {
      StoredUnderFirstFree(dir, filename, room, opens, chunks, ending);
      var n := NumberOf(dir, name);
      SafeNameIsOpenable(filename);
      PartNamesStayInTheSeries(name, n);
    }
  }

  /** Such a name: a fine name of that kind is stored as it is, and then not shown. */
  lemma PartNamesAreStoredUnseen(dir: Dir, filename: string, chunks: seq<Chunk>)
    requires SENTINEL in dir && Fine(filename) && EndsInPart(filename) && filename !in dir
    requires AllWrite(chunks) && 0 < |Body(chunks)| <= MAX_UPLOAD_BYTES
    ensures var (dir', r) := Outcome(dir, filename, true, true, chunks, Ends);
      r == Stored(filename, false, |Body(chunks)|) && filename in dir' && filename !in Listed(dir')
  {
    UnchangedIffFine(filename);
    WritesAllIff(chunks, Ends, []);
    assert [] + Body(chunks) == Body(chunks);
    assert Candidate(filename, 1) == filename;
  }

  lemma ShortPartNameIsFine()
    ensures Fine("a.part") && EndsInPart("a.part")
  {
    var name := "a.part";
    assert name[0] == 'a' && name[1] == '.' && name[5] == 't' && SENTINEL[0] == '.';
    SixBytes(name);
    assert Stem(name) == [name[0]] + Stem(name[1..]) && Stem(name[1..]) == "";
    assert |Stem(name)| == 1;
    assert name[1..] == PART_SUFFIX;
  }
}
