/**
 * The passages one Knowledge-chat turn retrieves: their numbering, the character budget, the loop
 * that shows them to the model, and the citations that are shown to the reader (knowledge_chat.py).
 */
module Passages {
  import opened Calls
  import FairMerge
  import opened Picks

  /** Set by the deployment. */
  const CONTEXT_CHARS: int

  /** What a tool asks to put in front of the model. */
  datatype Found = Found(
    key: string, document: Option<string>, title: string, text: string, excerpt: string, weak: bool)

  datatype Passage = Passage(n: nat, found: Found)

  datatype Book = Book(passages: seq<Passage>, byKey: map<string, Passage>, chars: int)

  const EMPTY := Book([], map[], 0)

  function TotalChars(passages: seq<Passage>): nat {
    if passages == [] then 0
    else TotalChars(passages[..|passages| - 1]) + |passages[|passages| - 1].found.text|
  }

  /** Numbers run 1..n in insertion order, keys and passages correspond one to one, and the character
      count is the sum of the texts, never above the budget. */
  predicate Valid(b: Book) {
    && (forall i :: 0 <= i < |b.passages| ==> b.passages[i].n == i + 1)
    && Keyed(b.passages, b.byKey)
    && b.chars == TotalChars(b.passages)
    && (b.passages != [] ==> b.chars <= CONTEXT_CHARS)
  }

  predicate Keyed(passages: seq<Passage>, byKey: map<string, Passage>) {
    && (forall i :: 0 <= i < |passages| ==>
          passages[i].found.key in byKey && byKey[passages[i].found.key] == passages[i])
    && (forall k :: k in byKey ==> byKey[k].found.key == k && byKey[k] in passages)
  }

  lemma NewKeyKeepsKeyed(passages: seq<Passage>, byKey: map<string, Passage>, p: Passage)
    requires Keyed(passages, byKey) && p.found.key !in byKey
    ensures Keyed(passages + [p], byKey[p.found.key := p])
  {
    var more := passages + [p];
    assert more[|passages|] == p;
    forall k | k in byKey ensures byKey[k] in more {
      var i :| 0 <= i < |passages| && passages[i] == byKey[k];
      assert more[i] == byKey[k];
    }
  }

  predicate Fits(b: Book, f: Found) { b.chars + |f.text| <= CONTEXT_CHARS }

  function Added(b: Book, f: Found): Book {
    if f.key in b.byKey || !Fits(b, f) then b
    else
      var p := Passage(|b.passages| + 1, f);
      Book(b.passages + [p], b.byKey[f.key := p], b.chars + |f.text|)
  }

  /** Each passage has one number for the whole turn: adding only ever appends. */
  lemma AddKeepsBook(b: Book, f: Found)
    requires Valid(b)
    ensures Valid(Added(b, f)) && b.passages <= Added(b, f).passages
    ensures f.key in Added(b, f).byKey <==> f.key in b.byKey || Fits(b, f)
  {
    if f.key !in b.byKey && Fits(b, f) {
      NewKeyKeepsKeyed(b.passages, b.byKey, Passage(|b.passages| + 1, f));
      OneMorePassage(b.passages, Passage(|b.passages| + 1, f));
    }
  }

  lemma OneMorePassage(passages: seq<Passage>, p: Passage)
    ensures TotalChars(passages + [p]) == TotalChars(passages) + |p.found.text| && passages <= passages + [p]
  {
    assert (passages + [p])[..|passages|] == passages;
  }

  function AddedAll(b: Book, fs: seq<Found>): Book
    decreases |fs|
  {
    if fs == [] then b else Added(AddedAll(b, fs[..|fs| - 1]), fs[|fs| - 1])
  }

  /** Tools of one round run concurrently; whatever order their additions arrive in, the book stays
      valid and what is already numbered keeps its number. */
  lemma {:induction false} EveryInterleavingKeepsBook(b: Book, arrivals: seq<Found>)
    requires Valid(b)
    ensures Valid(AddedAll(b, arrivals)) && b.passages <= AddedAll(b, arrivals).passages
    decreases |arrivals|
  {
    if arrivals == [] {
    } else {
      var n := |arrivals| - 1;
      EveryInterleavingKeepsBook(b, arrivals[..n]);
      AddKeepsBook(AddedAll(b, arrivals[..n]), arrivals[n]);
    }
  }

  function Founds(passages: seq<Passage>): (fs: seq<Found>)
    ensures |fs| == |passages| && forall i :: 0 <= i < |passages| ==> fs[i] == passages[i].found
  {
    seq(|passages|, i requires 0 <= i < |passages| => passages[i].found)
  }

  predicate HasKey(passages: seq<Passage>, key: string) {
    exists i :: 0 <= i < |passages| && passages[i].found.key == key
  }

  /** The addition has a passage under its key, or would not fit. */
  predicate Settled(passages: seq<Passage>, f: Found) {
    HasKey(passages, f.key) || TotalChars(passages) + |f.text| > CONTEXT_CHARS
  }

  lemma KeysAreThoseOfPassages(b: Book, key: string)
    requires Valid(b)
    ensures key in b.byKey <==> HasKey(b.passages, key)
  {
    if key in b.byKey {
      var i :| 0 <= i < |b.passages| && b.passages[i] == b.byKey[key];
      assert b.passages[i].found.key == key;
    }
  }

  /** One more addition is put in the book, whole and last, if and only if its key is new and it fits. */
  lemma AddedIs(b: Book, f: Found)
    requires Valid(b)
    ensures Added(b, f).passages ==
      if HasKey(b.passages, f.key) || TotalChars(b.passages) + |f.text| > CONTEXT_CHARS then b.passages
      else b.passages + [Passage(|b.passages| + 1, f)]
  {
    KeysAreThoseOfPassages(b, f.key);
  }

  lemma OneMoreStands(places: seq<nat>, passages: seq<Passage>, arrivals: seq<Found>, p: Passage)
    requires StandsAt(places, Founds(passages), arrivals)
    ensures StandsAt(places, Founds(passages), arrivals + [p.found])
    ensures StandsAt(places + [|arrivals|], Founds(passages + [p]), arrivals + [p.found])
  {
    StandsInLonger(places, Founds(passages), arrivals, p.found);
    assert Founds(passages + [p]) == Founds(passages) + [p.found];
  }

  lemma NextStands(places: seq<nat>, b: Book, arrivals: seq<Found>, f: Found) returns (more: seq<nat>)
    requires StandsAt(places, Founds(b.passages), arrivals)
    ensures StandsAt(more, Founds(Added(b, f).passages), arrivals + [f])
  {
    OneMoreStands(places, b.passages, arrivals, Passage(|b.passages| + 1, f));
    more := if f.key in b.byKey || !Fits(b, f) then places else places + [|arrivals|];
  }

  /** The book holds additions whole, each at most once, in the order they came. */
  lemma {:induction false} BookHoldsWhatCame(arrivals: seq<Found>) returns (places: seq<nat>)
    ensures StandsAt(places, Founds(AddedAll(EMPTY, arrivals).passages), arrivals)
    decreases |arrivals|
  {
    if arrivals == [] {
      places := [];
    } else {
      var n := |arrivals| - 1;
      var before := BookHoldsWhatCame(arrivals[..n]);
      assert arrivals == arrivals[..n] + [arrivals[n]];
      places := NextStands(before, AddedAll(EMPTY, arrivals[..n]), arrivals[..n], arrivals[n]);
    }
  }

  lemma SettledStays(passages: seq<Passage>, p: Passage, f: Found)
    requires Settled(passages, f)
    ensures Settled(passages + [p], f)
  {
    OneMorePassage(passages, p);
    if HasKey(passages, f.key) {
      var i :| 0 <= i < |passages| && passages[i].found.key == f.key;
      assert (passages + [p])[i].found.key == f.key;
    }
  }

  lemma NewestIsSettled(passages: seq<Passage>, p: Passage)
    ensures Settled(passages + [p], p.found)
  {
    assert (passages + [p])[|passages|].found.key == p.found.key;
  }

  lemma AddedStaysSettled(b: Book, f: Found, g: Found)
    requires Valid(b)
    ensures Settled(Added(b, f).passages, f)
    ensures Settled(b.passages, g) ==> Settled(Added(b, f).passages, g)
  {
    var p := Passage(|b.passages| + 1, f);
    AddedIs(b, f);
    NewestIsSettled(b.passages, p);
    if Settled(b.passages, g) { SettledStays(b.passages, p, g); }
  }

  lemma LastIsSettled(arrivals: seq<Found>, f: Found, i: nat)
    requires i < |arrivals| ==> Settled(AddedAll(EMPTY, arrivals).passages, arrivals[i])
    ensures i <= |arrivals| ==> Settled(Added(AddedAll(EMPTY, arrivals), f).passages, (arrivals + [f])[i])
  {
    EveryInterleavingKeepsBook(EMPTY, arrivals);
    if i <= |arrivals| { AddedStaysSettled(AddedAll(EMPTY, arrivals), f, (arrivals + [f])[i]); }
  }

  /** And nothing that came is left out that would still fit. */
  lemma {:induction false} NothingFittingIsLeftOut(arrivals: seq<Found>, i: nat)
    requires i < |arrivals|
    ensures Settled(AddedAll(EMPTY, arrivals).passages, arrivals[i])
    decreases |arrivals|
  {
    var n := |arrivals| - 1;
    if i < n { NothingFittingIsLeftOut(arrivals[..n], i); }
    LastIsSettled(arrivals[..n], arrivals[n], i);
    assert arrivals == arrivals[..n] + [arrivals[n]];
  }

  function PassageFor(b: Book, key: string): Option<Passage> {
    if key in b.byKey then Some(b.byKey[key]) else None
  }

  /** The book after showing some chunks, what was shown, and whether the budget ran out. */
  datatype Showing = Showing(book: Book, shown: seq<Passage>, full: bool)

  function After(first: seq<Passage>, rest: Showing): Showing { rest.(shown := first + rest.shown) }

  function Shown(b: Book, chunks: seq<Found>): Showing
    decreases |chunks|
  {
    if chunks == [] then Showing(b, [], false)
    else
      var b' := Added(b, chunks[0]);
      match PassageFor(b', chunks[0].key)
      case None => Showing(b', [], true)
      case Some(p) => After([p], Shown(b', chunks[1..]))
  }

  predicate ShownFrom(b: Book, chunks: seq<Found>, shown: seq<Passage>) {
    |shown| <= |chunks|
    && forall i :: 0 <= i < |shown| ==> shown[i].found.key == chunks[i].key && shown[i] in b.passages
  }

  /** What the model is shown is a prefix of the chunks, each under its one number; the loop stops
      only at a chunk that is new and does not fit. */
  lemma {:induction false} ShownIsAPrefix(b: Book, chunks: seq<Found>)
    requires Valid(b)
    ensures var s := Shown(b, chunks);
      && Valid(s.book) && b.passages <= s.book.passages
      && ShownFrom(s.book, chunks, s.shown) && (s.full <==> |s.shown| < |chunks|)
      && (s.full ==> chunks[|s.shown|].key !in s.book.byKey && !Fits(s.book, chunks[|s.shown|]))
    decreases |chunks|
  {
    if chunks == [] {
    } else {
      AddKeepsBook(b, chunks[0]);
      var b' := Added(b, chunks[0]);
      if chunks[0].key in b'.byKey {
        ShownIsAPrefix(b', chunks[1..]);
        ShownOneMore(b', chunks, Shown(b', chunks[1..]));
      }
    }
  }

  lemma ShownOneMore(b: Book, chunks: seq<Found>, rest: Showing)
    requires Valid(b) && chunks != [] && chunks[0].key in b.byKey && b.passages <= rest.book.passages
    requires ShownFrom(rest.book, chunks[1..], rest.shown)
    ensures ShownFrom(rest.book, chunks, [b.byKey[chunks[0].key]] + rest.shown)
  {
    var shown := [b.byKey[chunks[0].key]] + rest.shown;
    var k :| 0 <= k < |b.passages| && b.passages[k] == shown[0];
    assert rest.book.passages[k] == shown[0];
  }

  class TurnContext {
    var passages: seq<Passage>
    var byKey: map<string, Passage>
    var chars: int

    ghost function View(): Book reads this { Book(passages, byKey, chars) }

    constructor ()
      ensures View() == EMPTY
    {
      passages, byKey, chars := [], map[], 0;
    }

    method Add(f: Found) returns (p: Option<Passage>)
      modifies this
      ensures View() == Added(old(View()), f)
      ensures p == PassageFor(View(), f.key)
    {
      if f.key in byKey {
        return Some(byKey[f.key]);
      }
      if chars + |f.text| > CONTEXT_CHARS {
        return None;
      }
      var made := Passage(|passages| + 1, f);
      passages := passages + [made];
      byKey := byKey[f.key := made];
      chars := chars + |f.text|;
      p := Some(made);
    }

    /** The loop shared by search and read: number the chunks in order, stop at the first that does not
        fit. */
    method Show(chunks: seq<Found>) returns (shown: seq<Passage>, full: bool)
      modifies this
      ensures Showing(View(), shown, full) == Shown(old(View()), chunks)
    {
      shown, full := [], false;
      ghost var goal := Shown(View(), chunks);
      for k := 0 to |chunks|
        invariant !full
        invariant goal == After(shown, Shown(View(), chunks[k..]))
      {
        var added := Add(chunks[k]);
        assert chunks[k..][1..] == chunks[k + 1..];
        if added == None {
          full := true;
          return;
        }
        shown := shown + [added.value];
      }
    }
  }

  // --- what the search shows ----------------------------------------------------------------------

  const SCOPED_WEAK_MAX := 6

  predicate IsStrong(f: Found) { !f.weak }

  function Strong(chunks: seq<Found>): seq<Found> {
    if chunks == [] then [] else (if chunks[0].weak then [] else [chunks[0]]) + Strong(chunks[1..])
  }

  /** Inside named documents nothing is dropped, except that a result with only weak matches is cut
      short; across the library weak matches never reach the model. */
  function Selected(chunks: seq<Found>, scoped: bool): seq<Found> {
    if !scoped then Strong(chunks)
    else if (forall c :: c in chunks ==> c.weak) && |chunks| > SCOPED_WEAK_MAX then chunks[..SCOPED_WEAK_MAX]
    else chunks
  }

  lemma {:induction false} StrongIsFiltered(chunks: seq<Found>)
    ensures Strong(chunks) == Filter(chunks, IsStrong)
  {
    if chunks != [] { StrongIsFiltered(chunks[1..]); }
  }

  /** Across the library the selection is the strong passages, every one of them, in the order found. */
  lemma OnlyStrongAcrossTheLibrary(chunks: seq<Found>)
    ensures PicksOut(Selected(chunks, false), chunks, IsStrong)
  {
    StrongIsFiltered(chunks);
    FilterPicksOut(chunks, IsStrong);
  }

  /** Inside named documents everything found is selected, unless every passage is weak and there are more
      than six; then it is the first six. */
  lemma ScopedSelectionIs(chunks: seq<Found>)
    ensures Selected(chunks, true) == chunks <==> |chunks| <= 6 || exists i :: 0 <= i < |chunks| && !chunks[i].weak
    ensures Selected(chunks, true) != chunks ==> Selected(chunks, true) == chunks[..6]
  {
    if i :| 0 <= i < |chunks| && !chunks[i].weak { assert chunks[i] in chunks; }
  }

  /** A search over several named documents puts in front of the model, in the merge's order, results
      in which any document with some left is at most one behind any other: the weak cut and the
      budget only ever keep a prefix. */
  lemma SeveralDocumentsShareTheBudget(b: Book, lists: seq<seq<Found>>, merged: seq<Found>, d: nat, e: nat)
    requires Valid(b) && d < |lists| && e < |lists|
    requires FairMerge.Reads(merged, lists, FairMerge.Order(FairMerge.Lengths(lists)))
    ensures var lens := FairMerge.Lengths(lists);
            var shown := Shown(b, Selected(merged, true)).shown;
      && |shown| <= |FairMerge.Order(lens)|
      && (var places := FairMerge.Order(lens)[..|shown|];
          && (forall k :: 0 <= k < |shown| ==>
                places[k].doc < |lists| && places[k].rank < |lists[places[k].doc]|
                && shown[k].found.key == lists[places[k].doc][places[k].rank].key)
          && (FairMerge.Share(places, d) < |lists[d]| ==> FairMerge.Share(places, e) <= FairMerge.Share(places, d) + 1))
  {
    ShownIsAPrefix(b, Selected(merged, true));
    FairMerge.EveryPrefixIsFair(FairMerge.Lengths(lists), |Shown(b, Selected(merged, true)).shown|, d, e);
  }

  // --- citations ----------------------------------------------------------------------------------

  /** The text patterns the module matches with, as arbitrary functions: citation numbers in a text,
      its sentences, sentences about the library itself, sentences with a contrast, and blanks. */
  datatype Reader = Reader(
    cites: string -> set<nat>, sentences: string -> seq<string>,
    meta: string -> bool, contrast: string -> bool, blank: char -> bool)

  function Cited(passages: seq<Passage>, wanted: set<nat>): seq<Passage> {
    if passages == [] then []
    else (if passages[0].n in wanted then [passages[0]] else []) + Cited(passages[1..], wanted)
  }

  predicate OnlyMetaCitations(answer: string, r: Reader) {
    (exists s :: s in r.sentences(answer) && r.cites(s) != {})
    && forall s :: s in r.sentences(answer) && r.cites(s) != {} ==> r.meta(s) && !r.contrast(s)
  }

  function CitedSources(answer: string, passages: seq<Passage>, r: Reader): seq<Passage> {
    if OnlyMetaCitations(answer, r) then [] else Cited(passages, r.cites(answer))
  }

  predicate Increasing(passages: seq<Passage>) {
    forall i, j :: 0 <= i < j < |passages| ==> passages[i].n < passages[j].n
  }

  lemma {:induction false} CitedMembers(passages: seq<Passage>, wanted: set<nat>, p: Passage)
    ensures p in Cited(passages, wanted) <==> p in passages && p.n in wanted
  {
    if passages != [] {
      CitedMembers(passages[1..], wanted, p);
      assert p in passages <==> p == passages[0] || p in passages[1..];
    }
  }

  lemma CitedExactly(passages: seq<Passage>, wanted: set<nat>)
    ensures forall p :: p in Cited(passages, wanted) <==> p in passages && p.n in wanted
  {
    forall p ensures p in Cited(passages, wanted) <==> p in passages && p.n in wanted {
      CitedMembers(passages, wanted, p);
    }
  }

  lemma {:induction false} CitedAscend(passages: seq<Passage>, wanted: set<nat>)
    requires Increasing(passages)
    ensures Increasing(Cited(passages, wanted))
  {
    if passages != [] {
      var rest := Cited(passages[1..], wanted);
      CitedAscend(passages[1..], wanted);
      forall k | 0 <= k < |rest| ensures passages[0].n < rest[k].n {
        CitedMembers(passages[1..], wanted, rest[k]);
        var i :| 0 <= i < |passages[1..]| && passages[1..][i] == rest[k];
        assert passages[i + 1] == rest[k];
      }
    }
  }

  /** Some sentence cites, and every sentence that does is about the library itself, without a contrast. */
  predicate MetaOnly(sentences: seq<string>, r: Reader) {
    && (exists i :: 0 <= i < |sentences| && r.cites(sentences[i]) != {})
    && forall i :: 0 <= i < |sentences| && r.cites(sentences[i]) != {} ==>
         r.meta(sentences[i]) && !r.contrast(sentences[i])
  }

  /** A passage is shown as a source if and only if the answer cites its number and not only sentences about
      the library do. */
  lemma SourceIsShownIff(answer: string, b: Book, r: Reader, p: Passage)
    requires Valid(b)
    ensures p in CitedSources(answer, b.passages, r) <==>
      p in b.passages && p.n in r.cites(answer) && !MetaOnly(r.sentences(answer), r)
  {
    var sentences := r.sentences(answer);
    if s :| s in sentences && r.cites(s) != {} {
      var i :| 0 <= i < |sentences| && sentences[i] == s;
    }
    CitedMembers(b.passages, r.cites(answer), p);
  }

  /** Every source shown is a passage of this turn that the answer cites, in increasing number order
      without repeats; none is missing unless every citing sentence is about the library itself. */
  lemma SourcesAreCitedPassages(answer: string, b: Book, r: Reader)
    requires Valid(b)
    ensures var out := CitedSources(answer, b.passages, r);
      && (forall p :: p in out ==> p in b.passages && p.n in r.cites(answer))
      && Increasing(out)
      && (!OnlyMetaCitations(answer, r) ==> forall p :: p in b.passages && p.n in r.cites(answer) ==> p in out)
  {
    CitedAscend(b.passages, r.cites(answer));
    CitedExactly(b.passages, r.cites(answer));
  }
}
