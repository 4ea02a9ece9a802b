/**
 * Which answer an upload gets (services/uploads.py, store_stream): each status if and only if its
 * condition holds, told from the directory and the body alone.
 */
module UploadOutcomes {
  import opened Calls
  import opened Utf8
  import opened UploadNames
  import opened UploadStore

  // --- how writing ends -----------------------------------------------------------------------------

  /** The `i`th chunk is the one at which the body grows over the cap or writing fails. */
  predicate StopsAt(chunks: seq<Chunk>, sofar: nat, i: nat) {
    i < |chunks| && chunks[i].bytes != []
    && (sofar + |Body(chunks[..i + 1])| > MAX_UPLOAD_BYTES || !chunks[i].writes)
  }

  predicate FirstStop(chunks: seq<Chunk>, sofar: nat, i: nat) {
    StopsAt(chunks, sofar, i) && forall j: nat :: j < i ==> !StopsAt(chunks, sofar, j)
  }

  lemma {:induction false} BodyOfBoth(a: seq<Chunk>, b: seq<Chunk>)
    ensures Body(a + b) == Body(a) + Body(b)
  {
    if a == [] {
      assert a + b == b;
    } else {
      assert (a + b)[1..] == a[1..] + b;
      BodyOfBoth(a[1..], b);
    }
  }

  lemma StopsLater(chunks: seq<Chunk>, sofar: nat, i: nat)
    requires chunks != [] && i > 0
    ensures StopsAt(chunks, sofar, i) <==> StopsAt(chunks[1..], sofar + |chunks[0].bytes|, i - 1)
  {
    if i < |chunks| {
      assert chunks[..i + 1] == [chunks[0]] + chunks[1..][..i];
      assert chunks[..i + 1][1..] == chunks[1..][..i];
    }
  }

  lemma StopsNow(chunks: seq<Chunk>, sofar: nat)
    requires chunks != []
    ensures StopsAt(chunks, sofar, 0) <==>
      chunks[0].bytes != [] && (sofar + |chunks[0].bytes| > MAX_UPLOAD_BYTES || !chunks[0].writes)
  {
    assert chunks[..1][1..] == [] && Body(chunks[..1]) == chunks[0].bytes + [];
    assert chunks[..0 + 1] == chunks[..1];
  }

  /** Writing stops at the first such chunk, and what stops it there decides. */
  lemma {:induction false} WriteStops(chunks: seq<Chunk>, ending: Ending, sofar: Bytes, i: nat)
    requires FirstStop(chunks, |sofar|, i)
    ensures Write(chunks, ending, sofar) ==
      if |sofar| + |Body(chunks[..i + 1])| > MAX_UPLOAD_BYTES then OverCap else Broken
    decreases |chunks|
  {
    StopsNow(chunks, |sofar|);
    assert chunks[..i + 1][1..] == chunks[1..][..i];
    if i == 0 {
      assert chunks[..1][1..] == [];
    } else {
      var c, rest := chunks[0], chunks[1..];
      assert !StopsAt(chunks, |sofar|, 0);
      StopsLater(chunks, |sofar|, i);
      forall j: nat | j < i - 1 ensures !StopsAt(rest, |sofar + c.bytes|, j) {
        StopsLater(chunks, |sofar|, j + 1);
      }
      assert sofar + [] == sofar;
      WriteStops(rest, ending, sofar + c.bytes, i - 1);
    }
  }

  /** Without one, the body's own end decides. */
  lemma {:induction false} WriteGoesOn(chunks: seq<Chunk>, ending: Ending, sofar: Bytes)
    requires forall i: nat :: !StopsAt(chunks, |sofar|, i)
    ensures Write(chunks, ending, sofar) ==
      match ending
      case Ends => All(sofar + Body(chunks))
      case Breaks => Broken
      case Cancelled => CutOff(sofar + Body(chunks))
    decreases |chunks|
  {
    if chunks == [] {
      assert sofar + Body(chunks) == sofar;
    } else {
      var c, rest := chunks[0], chunks[1..];
      StopsNow(chunks, |sofar|);
      assert !StopsAt(chunks, |sofar|, 0);
      forall i: nat ensures !StopsAt(rest, |sofar + c.bytes|, i) {
        StopsLater(chunks, |sofar|, i + 1);
      }
      WriteGoesOn(rest, ending, sofar + c.bytes);
      assert sofar + [] == sofar;
      assert sofar + c.bytes + Body(rest) == sofar + Body(chunks);
    }
  }

  predicate Grows(chunks: seq<Chunk>, i: nat) { i < |chunks| && |Body(chunks[..i + 1])| > MAX_UPLOAD_BYTES }

  /** The cap is what stops the body. */
  ghost predicate TooLarge(chunks: seq<Chunk>) { exists i: nat :: FirstStop(chunks, 0, i) && Grows(chunks, i) }

  /** A failing write is what stops it. */
  ghost predicate WriteFails(chunks: seq<Chunk>) { exists i: nat :: FirstStop(chunks, 0, i) && !Grows(chunks, i) }

  lemma {:induction false} FirstStopExists(chunks: seq<Chunk>, sofar: nat, i: nat) returns (j: nat)
    requires StopsAt(chunks, sofar, i)
    ensures FirstStop(chunks, sofar, j)
    decreases i
  {
    if k: nat :| k < i && StopsAt(chunks, sofar, k) { j := FirstStopExists(chunks, sofar, k); } else { j := i; }
  }

  lemma OneFirstStop(chunks: seq<Chunk>, sofar: nat, i: nat, j: nat)
    requires FirstStop(chunks, sofar, i) && FirstStop(chunks, sofar, j)
    ensures i == j
  {
  }

  lemma WrittenIs(chunks: seq<Chunk>, ending: Ending)
    ensures var w := Write(chunks, ending, []); var runs := !TooLarge(chunks) && !WriteFails(chunks);
      && (w == OverCap <==> TooLarge(chunks))
      && (w == Broken <==> WriteFails(chunks) || (runs && ending == Breaks))
      && (w.CutOff? <==> runs && ending == Cancelled) && (w.CutOff? ==> w.bytes == Body(chunks))
      && (w.All? <==> runs && ending == Ends) && (w.All? ==> w.bytes == Body(chunks))
  {
    assert [] + Body(chunks) == Body(chunks);
    if i: nat :| StopsAt(chunks, 0, i) {
      var j := FirstStopExists(chunks, 0, i);
      WriteStops(chunks, ending, [], j);
      forall k: nat | FirstStop(chunks, 0, k) ensures k == j {
        OneFirstStop(chunks, 0, j, k);
      }
    } else {
      WriteGoesOn(chunks, ending, []);
    }
  }

  // --- which status ---------------------------------------------------------------------------------

  predicate SeriesIsTaken(dir: Dir, name: string) { forall n :: 1 <= n <= 999 ==> Candidate(name, n) in dir }

  /** The upload gets as far as opening its partial file. */
  predicate GetsToOpen(dir: Dir, name: string, room: bool) {
    SENTINEL in dir && room && !SeriesIsTaken(dir, name)
  }

  lemma SeriesIsTakenIff(dir: Dir, name: string)
    ensures FirstFree(dir, name, 1) == None <==> SeriesIsTaken(dir, name)
  {
    FirstFreeIsFirst(dir, name, 1);
  }

  lemma FinishedIs(dir: Dir, target: string, rewritten: bool, chunks: seq<Chunk>, ending: Ending)
    ensures var r := Finish(dir, target, rewritten, Write(chunks, ending, [])).1;
      var runs := !TooLarge(chunks) && !WriteFails(chunks);
      && (r == Refused(413) <==> TooLarge(chunks))
      && (r == Refused(500) <==> WriteFails(chunks) || (runs && ending == Breaks))
      && (r == Refused(400) <==> runs && ending == Ends && Body(chunks) == [])
      && (r == Abandoned <==> runs && ending == Cancelled)
      && (r.Stored? ==> r == Stored(target, rewritten, |Body(chunks)|))
  {
    WrittenIs(chunks, ending);
  }

  /** The answer of an upload under this hardened name, each exactly when its condition holds. */
  ghost predicate AnswersBy(r: Result, dir: Dir, name: string, room: bool, opens: bool,
                            chunks: seq<Chunk>, ending: Ending)
  {
    var receives := GetsToOpen(dir, name, room) && opens;
    var runs := !TooLarge(chunks) && !WriteFails(chunks);
    && (r == Refused(503) <==> SENTINEL !in dir)
    && (r == Refused(507) <==> SENTINEL in dir && !room)
    && (r == Refused(409) <==> SENTINEL in dir && room && SeriesIsTaken(dir, name))
    && (r == Refused(413) <==> receives && TooLarge(chunks))
    && (r == Refused(400) <==> receives && runs && ending == Ends && Body(chunks) == [])
    && (r == Refused(500) <==>
          (GetsToOpen(dir, name, room) && !opens) || (receives && (WriteFails(chunks) || (runs && ending == Breaks))))
    && (r == Abandoned <==> receives && runs && ending == Cancelled)
  }

  lemma EarlyAnswerIs(dir: Dir, name: string, rewritten: bool, room: bool, opens: bool,
                      chunks: seq<Chunk>, ending: Ending)
    requires !(GetsToOpen(dir, name, room) && opens)
    ensures AnswersBy(OutcomeUnder(dir, name, rewritten, room, opens, chunks, ending).1,
                      dir, name, room, opens, chunks, ending)
  {
    SeriesIsTakenIff(dir, name);
  }

  lemma LateAnswerIs(dir: Dir, name: string, rewritten: bool, chunks: seq<Chunk>, ending: Ending)
    requires GetsToOpen(dir, name, true)
    ensures AnswersBy(OutcomeUnder(dir, name, rewritten, true, true, chunks, ending).1,
                      dir, name, true, true, chunks, ending)
  {
    SeriesIsTakenIff(dir, name);
    var target := FirstFree(dir, name, 1).value;
    FinishedIs(dir, target, rewritten || target != name, chunks, ending);
  }

  /** Every answer an upload can get: 503 without the folder, 507 without room, 409 with the series of names
      taken, 413 for a body that grows over the cap first, 400 for an empty one, 500 where opening, writing or
      receiving fails, and none for a cancelled request - each in no other case. */
  lemma AnswerIs(dir: Dir, filename: string, room: bool, opens: bool, chunks: seq<Chunk>, ending: Ending)
    ensures AnswersBy(Outcome(dir, filename, room, opens, chunks, ending).1,
                      dir, SafeName(filename), room, opens, chunks, ending)
  {
    if GetsToOpen(dir, SafeName(filename), room) && opens {
      LateAnswerIs(dir, SafeName(filename), !Fine(filename), chunks, ending);
    } else {
      EarlyAnswerIs(dir, SafeName(filename), !Fine(filename), room, opens, chunks, ending);
    }
  }

  /** A stored upload is reported under the name it got, with its size, and as rewritten exactly when that is
      not the name that was sent. */
  lemma StoredIsReported(dir: Dir, filename: string, room: bool, opens: bool, chunks: seq<Chunk>, ending: Ending)
    requires Outcome(dir, filename, room, opens, chunks, ending).1.Stored?
    ensures var r := Outcome(dir, filename, room, opens, chunks, ending).1;
      && (exists n :: FreeFirst(dir, SafeName(filename), n) && r.storedAs == Candidate(SafeName(filename), n))
      && r.size == |Body(chunks)|
      && (r.rewritten <==> SafeName(filename) != filename || r.storedAs != SafeName(filename))
  {
    var name := SafeName(filename);
    FirstFreeIsFirst(dir, name, 1);
    UnchangedIffFine(filename);
    var target := FirstFree(dir, name, 1).value;
    FinishedIs(dir, target, !Fine(filename) || target != name, chunks, ending);
  }

  // --- the names that are tried ---------------------------------------------------------------------

  function Value(digits: string): nat
    requires forall i :: 0 <= i < |digits| ==> '0' <= digits[i] <= '9'
  {
    if digits == "" then 0
    else Value(digits[..|digits| - 1]) * 10 + (digits[|digits| - 1] as int - 48)
  }

  /** A number is written in decimal, without leading zeros. */
  lemma {:induction false} DecimalReadsBack(n: nat)
    ensures Value(Decimal(n)) == n && (Decimal(n)[0] == '0' <==> n == 0)
  {
    var text := Decimal(n);
    if n >= 10 {
      DecimalReadsBack(n / 10);
      assert text[..|text| - 1] == Decimal(n / 10);
    } else {
      assert text[..0] == "";
    }
  }

  lemma {:induction false} LastDotIs(s: string)
    ensures LastDot(s) < |s| ==> s[LastDot(s)] == '.'
    ensures forall i :: LastDot(s) < i < |s| ==> s[i] != '.'
    ensures LastDot(s) == |s| ==> '.' !in s
    decreases |s|
  {
    if s != "" && s[|s| - 1] != '.' {
      LastDotIs(s[..|s| - 1]);
      assert s == s[..|s| - 1] + [s[|s| - 1]];
    }
  }

  /** The name tried in the `n`th place: the name itself, and from the second on its stem, the number in
      brackets, and its suffix - from its last dot, unless that is its first or last character. */
  lemma CandidateIs(name: string, n: nat) returns (i: nat)
    ensures i <= |name| && Candidate(name, n) ==
      if n <= 1 then name else name[..i] + " (" + Decimal(n) + ")" + name[i..]
    ensures i < |name| ==> 0 < i < |name| - 1 && name[i] == '.'
    ensures forall j :: i < j < |name| - 1 ==> name[j] != '.'
    ensures i == |name| ==> forall j :: 0 < j < |name| - 1 && name[j] == '.' ==> name[|name| - 1] == '.'
  {
    LastDotIs(name);
    i := SplitAt(name);
  }
}
