/**
 * A whole Knowledge-chat turn (knowledge_chat.py, run) told from outside: which rounds are played, what
 * each of them shows, and what the sources are taken from, from what the model streams and the tools
 * retrieve alone.
 */
module ChatRounds {
  import opened Calls
  import opened Passages
  import opened ChatTurn
  import opened Picks

  // --- one stream -----------------------------------------------------------------------------------

  predicate IsShown(p: Part) { p.call.None? && !p.thought && p.text != "" }

  predicate IsCall(p: Part) { p.call.Some? }

  lemma {:induction false} StreamIsFiltered(parts: seq<Part>)
    ensures var shown, calls := Filter(parts, IsShown), Filter(parts, IsCall);
      && |Visible(parts)| == |shown| && (forall i :: 0 <= i < |shown| ==> Visible(parts)[i] == shown[i].text)
      && |CallsOf(parts)| == |calls|
      && (forall i :: 0 <= i < |calls| ==> calls[i].call.Some? && CallsOf(parts)[i] == calls[i].call.value)
    decreases |parts|
  {
    if parts != [] {
      var n := |parts| - 1;
      var last := [parts[n]];
      StreamIsFiltered(parts[..n]);
      assert parts == parts[..n] + last;
      FilterOfBoth(parts[..n], last, IsShown);
      FilterOfBoth(parts[..n], last, IsCall);
      FilterOne(parts[n], IsShown);
      FilterOne(parts[n], IsCall);
    }
  }

  /** What a stream shows and asks for: the texts of the parts that are neither calls nor thoughts nor
      empty, and the calls, each in the order streamed. */
  lemma StreamIs(parts: seq<Part>) returns (shown: seq<Part>, calls: seq<Part>)
    ensures PicksOut(shown, parts, IsShown) && PicksOut(calls, parts, IsCall)
    ensures |Visible(parts)| == |shown| && forall i :: 0 <= i < |shown| ==> Visible(parts)[i] == shown[i].text
    ensures |CallsOf(parts)| == |calls|
    ensures forall i :: 0 <= i < |calls| ==> calls[i].call == Some(CallsOf(parts)[i])
  {
    shown, calls := Filter(parts, IsShown), Filter(parts, IsCall);
    StreamIsFiltered(parts);
    FilterPicksOut(parts, IsShown);
    FilterPicksOut(parts, IsCall);
  }

  // --- which rounds are played ----------------------------------------------------------------------

  predicate AsksForTools(s: Setting, n: nat) {
    exists i :: 0 <= i < |s.model(n).parts| && s.model(n).parts[i].call.Some?
  }

  /** The round's stream asks for calls and does not fail, and its tools are enabled. */
  predicate Retrieves(s: Setting, n: nat) { n <= MAX_ROUNDS && !s.model(n).failed && AsksForTools(s, n) }

  function DraftText(s: Setting): string { Join(Visible(s.model(1).parts)) }

  /** The first round answers from memory: it cites, or is longer than 80 characters in a conversation with
      history, without having retrieved anything. */
  predicate Discards(s: Setting) {
    && MAX_ROUNDS >= 1 && !s.model(1).failed && !AsksForTools(s, 1)
    && (s.reader.cites(DraftText(s)) != {} || (s.history && |DraftText(s)| > 80))
  }

  predicate GoesOn(s: Setting, n: nat) { Retrieves(s, n) || (n == 1 && Discards(s)) }

  predicate ToolsBefore(s: Setting, n: nat) { exists m: nat :: 1 <= m < n && Retrieves(s, m) }

  predicate Forced(s: Setting, n: nat) { n == 2 && Discards(s) }

  /** Until something has been retrieved text is held back. */
  predicate HoldsBack(s: Setting, n: nat) { n <= MAX_ROUNDS && !ToolsBefore(s, n) }

  function AtOnce(s: Setting, n: nat): seq<string> { if HoldsBack(s, n) then [] else Visible(s.model(n).parts) }

  /** What follows the text streamed at once: a paragraph break after text that leads to tools, or the draft
      that was held back, if it is kept. */
  function Afterwards(s: Setting, n: nat): seq<string> {
    var held := Join(Visible(s.model(n).parts));
    if s.model(n).failed then []
    else if AsksForTools(s, n) then (if n <= MAX_ROUNDS && AtOnce(s, n) != [] then [PARAGRAPH] else [])
    else if HoldsBack(s, n) && !(n == 1 && Discards(s)) && held != "" then [held] else []
  }

  function ShownIn(s: Setting, n: nat): seq<string> { AtOnce(s, n) + Afterwards(s, n) }

  function RoundIn(s: Setting, n: nat): Round {
    Round(n, ToolsBefore(s, n), Forced(s, n), ShownIn(s, n), if n == 1 && Discards(s) then Some(DraftText(s)) else None)
  }

  /** The calls that are made: the first six. */
  function CallsIn(s: Setting, n: nat): seq<Call> {
    var calls := CallsOf(s.model(n).parts);
    if !Retrieves(s, n) then [] else if |calls| <= 6 then calls else calls[..6]
  }

  function EventsIn(s: Setting, n: nat): seq<Event> {
    Tokens(AtOnce(s, n)) + ToolCalls(CallsIn(s, n)) + Tokens(Afterwards(s, n))
  }

  // --- the first n rounds ---------------------------------------------------------------------------

  function RoundsTo(s: Setting, n: nat): seq<Round> { if n == 0 then [] else RoundsTo(s, n - 1) + [RoundIn(s, n)] }

  function EventsTo(s: Setting, n: nat): seq<Event> { if n == 0 then [] else EventsTo(s, n - 1) + EventsIn(s, n) }

  function ShownTo(s: Setting, n: nat): seq<string> { if n == 0 then [] else ShownTo(s, n - 1) + ShownIn(s, n) }

  /** What the tools of the first `n` rounds retrieved, in round order. */
  function RetrievedTo(s: Setting, n: nat): seq<Found> {
    if n == 0 then [] else RetrievedTo(s, n - 1) + (if Retrieves(s, n) then s.retrieved(n) else [])
  }

  predicate Matches(c: Chat, s: Setting, n: nat) {
    && c.answer == ShownTo(s, n) && c.events == EventsTo(s, n) && c.rounds == RoundsTo(s, n)
    && c.book == AddedAll(EMPTY, RetrievedTo(s, n))
  }

  predicate Led(c: Chat, s: Setting, n: nat) {
    Matches(c, s, n) && c.toolsCalled == ToolsBefore(s, n + 1) && c.forceTools == Forced(s, n + 1)
  }

  lemma {:induction false} AddedInTurn(b: Book, xs: seq<Found>, ys: seq<Found>)
    ensures AddedAll(AddedAll(b, xs), ys) == AddedAll(b, xs + ys)
    decreases |ys|
  {
    if ys == [] {
      assert xs + ys == xs;
    } else {
      var n := |ys| - 1;
      assert (xs + ys)[..|xs + ys| - 1] == xs + ys[..n];
      AddedInTurn(b, xs, ys[..n]);
    }
  }

  lemma ToolsBeforeNext(s: Setting, n: nat)
    requires n >= 1
    ensures ToolsBefore(s, n + 1) <==> ToolsBefore(s, n) || Retrieves(s, n)
  {
  }

  lemma CallsMeanAsking(s: Setting, n: nat)
    ensures CallsOf(s.model(n).parts) != [] <==> AsksForTools(s, n)
  {
    var parts := s.model(n).parts;
    var shown, calls := StreamIs(parts);
    var places :| StandsAt(places, calls, parts) && Marks(places, parts, IsCall);
    if calls != [] { assert places[0] in places; }
    if i :| 0 <= i < |parts| && parts[i].call.Some? { assert i in places; }
  }

  /** How a round ends, given how those before it did. */
  predicate RoundEnds(p: Progress, s: Setting, n: nat) {
    && Matches(p.chat, s, n) && (p.Going? <==> GoesOn(s, n)) && (p.Going? ==> Led(p.chat, s, n))
    && (p.Broken? <==> s.model(n).failed && ShownTo(s, n) == [])
  }

  lemma SayIs(c: Chat, texts: seq<string>)
    ensures Say(c, texts).answer == c.answer + texts && Say(c, texts).events == c.events + Tokens(texts)
    ensures texts == [] ==> Say(c, texts) == c
  {
    if texts == [] { SayNothing(c); }
  }

  lemma FailedRoundIs(c: Chat, n: nat, s: Setting)
    requires n >= 1 && Led(c, s, n - 1) && n <= MAX_ROUNDS + 1 && s.model(n).failed
    ensures RoundEnds(OneRound(c, n, s), s, n)
  {
    SayIs(c, AtOnce(s, n));
    assert ShownIn(s, n) == AtOnce(s, n);
    assert EventsIn(s, n) == Tokens(AtOnce(s, n));
    assert RetrievedTo(s, n) == RetrievedTo(s, n - 1);
  }

  lemma LateRoundIs(c: Chat, n: nat, s: Setting)
    requires n >= 1 && Led(c, s, n - 1) && n == MAX_ROUNDS + 1 && !s.model(n).failed && AsksForTools(s, n)
    ensures RoundEnds(OneRound(c, n, s), s, n)
  {
    CallsMeanAsking(s, n);
    SayIs(c, AtOnce(s, n));
    assert ShownIn(s, n) == AtOnce(s, n);
    assert EventsIn(s, n) == Tokens(AtOnce(s, n));
    assert RetrievedTo(s, n) == RetrievedTo(s, n - 1);
  }

  lemma DiscardedRoundIs(c: Chat, s: Setting)
    requires Led(c, s, 0) && Discards(s)
    ensures RoundEnds(OneRound(c, 1, s), s, 1)
  {
    CallsMeanAsking(s, 1);
    SayIs(c, []);
    assert ShownIn(s, 1) == [] && EventsIn(s, 1) == [];
    assert RetrievedTo(s, 1) == [] && RetrievedTo(s, 0) == [];
  }

  /** A draft that was held back and is kept. */
  lemma HeldRoundIs(c: Chat, n: nat, s: Setting)
    requires n >= 1 && Led(c, s, n - 1) && HoldsBack(s, n) && !s.model(n).failed && !AsksForTools(s, n)
    requires !(n == 1 && Discards(s)) && (n > 1 ==> Forced(s, n))
    ensures RoundEnds(OneRound(c, n, s), s, n)
  {
    CallsMeanAsking(s, n);
    SayIs(c, []);
    SayIs(c, Afterwards(s, n));
    assert ShownIn(s, n) == Afterwards(s, n);
    assert EventsIn(s, n) == Tokens(Afterwards(s, n));
    assert RetrievedTo(s, n) == RetrievedTo(s, n - 1);
  }

  lemma StreamedRoundIs(c: Chat, n: nat, s: Setting)
    requires n >= 1 && Led(c, s, n - 1) && !HoldsBack(s, n) && !s.model(n).failed && !AsksForTools(s, n)
    requires n == 1 ==> !Discards(s)
    ensures RoundEnds(OneRound(c, n, s), s, n)
  {
    CallsMeanAsking(s, n);
    SayIs(c, AtOnce(s, n));
    SayIs(Say(c, AtOnce(s, n)), []);
    assert Join([]) == "";
    assert ShownIn(s, n) == AtOnce(s, n) && AtOnce(s, n) + [] == AtOnce(s, n);
    assert EventsIn(s, n) == Tokens(AtOnce(s, n));
    assert RetrievedTo(s, n) == RetrievedTo(s, n - 1);
  }

  lemma AfterToolsIs(c: Chat, streamed: seq<string>, calls: seq<Call>, found: seq<Found>)
    ensures var c' := AfterTools(c, streamed, calls, found);
      && c'.answer == c.answer + (streamed + Gap(streamed))
      && c'.events == c.events + (Tokens(streamed) + ToolCalls(calls) + Tokens(Gap(streamed)))
      && c'.book == AddedAll(c.book, found) && c'.toolsCalled && !c'.forceTools
  {
  }

  lemma ToolRoundShows(s: Setting, n: nat)
    requires n >= 1 && Retrieves(s, n)
    ensures Afterwards(s, n) == Gap(AtOnce(s, n))
    ensures CallsIn(s, n) == First(CallsOf(s.model(n).parts), MAX_CALLS_PER_ROUND)
    ensures !(n == 1 && Discards(s)) && !Forced(s, n + 1)
  {
  }

  lemma ToolRoundIs(c: Chat, n: nat, s: Setting)
    requires n >= 1 && Led(c, s, n - 1) && Retrieves(s, n)
    ensures RoundEnds(OneRound(c, n, s), s, n)
  {
    var calls := CallsOf(s.model(n).parts);
    CallsMeanAsking(s, n);
    ToolRoundShows(s, n);
    ToolsSettle(c, n, s, Visible(s.model(n).parts), calls);
    AfterToolsIs(c, AtOnce(s, n), CallsIn(s, n), s.retrieved(n));
    AddedInTurn(EMPTY, RetrievedTo(s, n - 1), s.retrieved(n));
    ToolsBeforeNext(s, n);
    ToolRoundEnds(c, AfterTools(c, AtOnce(s, n), CallsIn(s, n), s.retrieved(n)), n, s);
  }

  lemma ToolRoundEnds(c: Chat, c': Chat, n: nat, s: Setting)
    requires n >= 1 && Led(c, s, n - 1) && Retrieves(s, n) && ToolsBefore(s, n + 1) && !Forced(s, n + 1)
    requires !(n == 1 && Discards(s)) && c'.answer == c.answer + ShownIn(s, n) && c'.events == c.events + EventsIn(s, n)
    requires c'.book == AddedAll(EMPTY, RetrievedTo(s, n)) && c'.toolsCalled && !c'.forceTools
    ensures RoundEnds(Going(Note(c', c, n, ShownIn(s, n), None)), s, n)
  {
  }

  // --- the whole turn -------------------------------------------------------------------------------

  predicate AllGoOn(s: Setting, n: nat) { forall m: nat :: 1 <= m < n ==> GoesOn(s, m) }

  lemma BeforeIsForcedOrRetrieved(s: Setting, n: nat)
    requires n > 1 && AllGoOn(s, n)
    ensures ToolsBefore(s, n) || Forced(s, n)
  {
    assert GoesOn(s, n - 1);
  }

  lemma RoundIs(c: Chat, n: nat, s: Setting)
    requires 1 <= n <= MAX_ROUNDS + 1 && Led(c, s, n - 1) && AllGoOn(s, n)
    ensures RoundEnds(OneRound(c, n, s), s, n)
  {
    if n > 1 { BeforeIsForcedOrRetrieved(s, n); }
    if s.model(n).failed {
      FailedRoundIs(c, n, s);
    } else if AsksForTools(s, n) {
      if n <= MAX_ROUNDS { ToolRoundIs(c, n, s); } else { LateRoundIs(c, n, s); }
    } else if n == 1 && Discards(s) {
      DiscardedRoundIs(c, s);
    } else if HoldsBack(s, n) {
      HeldRoundIs(c, n, s);
    } else {
      StreamedRoundIs(c, n, s);
    }
  }

  /** `n` is the last round played: all before it lead on, and it does not. */
  predicate LastRound(s: Setting, n: nat) { 1 <= n <= MAX_ROUNDS + 1 && AllGoOn(s, n) && !GoesOn(s, n) }

  lemma PlayEnds(p: Progress, n: nat, s: Setting)
    requires !p.Going?
    ensures Play(p, n, s) == p
  {
  }

  lemma PlayNext(c: Chat, n: nat, s: Setting, p: Progress)
    requires 1 <= n <= MAX_ROUNDS + 1 && p == OneRound(c, n, s)
    ensures Play(Going(c), n, s) == Play(p, n + 1, s)
  {
  }

  lemma {:induction false} FirstToStop(s: Setting, n: nat) returns (last: nat)
    requires 1 <= n <= MAX_ROUNDS + 1 && AllGoOn(s, n)
    ensures LastRound(s, last)
    decreases MAX_ROUNDS + 2 - n
  {
    if GoesOn(s, n) { last := FirstToStop(s, n + 1); } else { last := n; }
  }

  /** The chat in which round `n` begins, if it is reached. */
  function ChatBefore(s: Setting, n: nat): Chat
    decreases n, 0
  {
    if n <= 1 then NEW_CHAT else RoundOf(s, n - 1).chat
  }

  function RoundOf(s: Setting, n: nat): Progress
    decreases n, 1
  {
    OneRound(ChatBefore(s, n), n, s)
  }

  lemma RoundOfIs(s: Setting, n: nat)
    requires 1 <= n <= MAX_ROUNDS + 1 && Led(ChatBefore(s, n), s, n - 1) && AllGoOn(s, n)
    ensures RoundEnds(RoundOf(s, n), s, n)
  {
    RoundIs(ChatBefore(s, n), n, s);
  }

  lemma NewChatIsLed(s: Setting)
    ensures Led(NEW_CHAT, s, 0)
  {
  }

  lemma {:induction false} ChatsAreLed(s: Setting, n: nat)
    requires 1 <= n <= MAX_ROUNDS + 1 && AllGoOn(s, n)
    ensures Led(ChatBefore(s, n), s, n - 1)
  {
    if n == 1 {
      NewChatIsLed(s);
    } else {
      ChatsAreLed(s, n - 1);
      RoundOfIs(s, n - 1);
      assert GoesOn(s, n - 1);
    }
  }

  /** The rounds from this one on. */
  function Onward(s: Setting, n: nat): Progress { Play(Going(ChatBefore(s, n)), n, s) }

  lemma GoesOnward(s: Setting, n: nat, next: nat)
    requires 1 <= n <= MAX_ROUNDS && next == n + 1 && AllGoOn(s, next)
    ensures Onward(s, n) == Onward(s, next)
  {
    assert GoesOn(s, n);
    ChatsAreLed(s, n);
    RoundOfIs(s, n);
    PlayNext(ChatBefore(s, n), n, s, RoundOf(s, n));
  }

  predicate SameNext<T(==)>(f: nat -> T, n: nat) { f(n) == f(n + 1) }

  lemma {:induction false} SameThroughout<T>(f: nat -> T, n: nat)
    requires n >= 1 && forall m: nat :: 1 <= m < n ==> SameNext(f, m)
    ensures f(1) == f(n)
  {
    if n > 1 {
      SameThroughout(f, n - 1);
      assert SameNext(f, n - 1);
    }
  }

  lemma PlayedOnward(s: Setting, n: nat)
    requires 1 <= n <= MAX_ROUNDS + 1 && AllGoOn(s, n)
    ensures Played(s) == Onward(s, n)
  {
    var f := (m: nat) => Onward(s, m);
    forall m: nat | 1 <= m < n ensures SameNext(f, m) {
      GoesOnward(s, m, m + 1);
    }
    SameThroughout(f, n);
  }

  lemma PlayIs(s: Setting, last: nat)
    requires LastRound(s, last)
    ensures RoundEnds(Played(s), s, last)
  {
    ChatsAreLed(s, last);
    RoundOfIs(s, last);
    PlayedOnward(s, last);
    PlayNext(ChatBefore(s, last), last, s, RoundOf(s, last));
    PlayEnds(RoundOf(s, last), last + 1, s);
  }

  /** How a turn ends after its last round. */
  function EndingIn(s: Setting, n: nat): seq<Event> {
    var answer := Strip(Join(ShownTo(s, n)), s.reader.blank);
    if s.model(n).failed && ShownTo(s, n) == [] then [Token(UNREACHABLE), Ended(false)]
    else if answer == "" then [Token(NO_ANSWER), Sources([]), Ended(true)]
    else [Sources(CitedSources(answer, AddedAll(EMPTY, RetrievedTo(s, n)).passages, s.reader)), Ended(true)]
  }

  /** A turn is exactly this: its rounds up to the first that neither retrieves nor is thrown away, each
      showing what `ShownIn` says and making the calls `CallsIn` says, and then sources taken from what the
      tools of those rounds retrieved, in round order. */
  lemma TurnIs(s: Setting) returns (last: nat)
    requires MAX_ROUNDS >= 0
    ensures LastRound(s, last)
    ensures Played(s).chat.rounds == RoundsTo(s, last) && Played(s).chat.answer == ShownTo(s, last)
    ensures Played(s).chat.book == AddedAll(EMPTY, RetrievedTo(s, last))
    ensures Turn(s) == EventsTo(s, last) + EndingIn(s, last)
  {
    last := FirstToStop(s, 1);
    PlayIs(s, last);
  }

  lemma OnlyTheLastStops(s: Setting, last: nat, n: nat)
    requires LastRound(s, last) && 1 <= n <= last
    ensures n < last <==> GoesOn(s, n)
  {
  }

  /** A round that retrieves is followed by another, and so is a first one that is thrown away; no other. */
  lemma RetrievingLeadsOn(s: Setting, n: nat)
    requires 1 <= n <= |Played(s).chat.rounds| && MAX_ROUNDS >= 0
    ensures n < |Played(s).chat.rounds| <==> GoesOn(s, n)
  {
    var last := TurnIs(s);
    RoundsAreCounted(s, last);
    OnlyTheLastStops(s, last, n);
  }

  lemma {:induction false} RoundsAreCounted(s: Setting, n: nat)
    ensures |RoundsTo(s, n)| == n
  {
    if n > 0 { RoundsAreCounted(s, n - 1); }
  }

  /** Two rounds: the first retrieves, the second answers. The sources are what the answer cites of what the
      first retrieved. */
  lemma AnswerCitesWhatWasRetrieved(s: Setting)
    requires MAX_ROUNDS >= 1 && Retrieves(s, 1) && !s.model(2).failed && !AsksForTools(s, 2)
    requires Strip(Join(Visible(s.model(2).parts)), s.reader.blank) != ""
    ensures var answer := Strip(Join(Visible(s.model(2).parts)), s.reader.blank);
      var sources := CitedSources(answer, AddedAll(EMPTY, s.retrieved(1)).passages, s.reader);
      Turn(s) == ToolCalls(CallsIn(s, 1)) + Tokens(Visible(s.model(2).parts)) + [Sources(sources), Ended(true)]
  {
    var last := TurnIs(s);
    SecondIsLast(s, last);
    TwoRounds(s);
  }

  lemma SecondIsLast(s: Setting, last: nat)
    requires LastRound(s, last) && Retrieves(s, 1) && !s.model(2).failed && !AsksForTools(s, 2)
    ensures last == 2
  {
    assert GoesOn(s, 1) && !GoesOn(s, 2);
  }

  lemma TwoRounds(s: Setting)
    requires MAX_ROUNDS >= 1 && Retrieves(s, 1) && !s.model(2).failed && !AsksForTools(s, 2)
    ensures ShownTo(s, 2) == Visible(s.model(2).parts) && RetrievedTo(s, 2) == s.retrieved(1)
    ensures EventsTo(s, 2) == ToolCalls(CallsIn(s, 1)) + Tokens(Visible(s.model(2).parts))
  {
    assert ToolsBefore(s, 2);
    assert !ToolsBefore(s, 1);
    assert AtOnce(s, 1) == [] && Afterwards(s, 1) == [] && Afterwards(s, 2) == [];
    assert ShownTo(s, 0) == [] && RetrievedTo(s, 0) == [] && ShownTo(s, 1) == [] && RetrievedTo(s, 1) == s.retrieved(1);
    assert EventsTo(s, 1) == ToolCalls(CallsIn(s, 1));
    assert EventsIn(s, 2) == Tokens(Visible(s.model(2).parts));
  }

  /** One passage that fits, and an answer that cites it: the passage is the source. */
  lemma RetrievedPassageIsTheSource(s: Setting, f: Found)
    requires MAX_ROUNDS >= 1 && Retrieves(s, 1) && !s.model(2).failed && !AsksForTools(s, 2)
    requires s.retrieved(1) == [f] && |f.text| <= CONTEXT_CHARS
    requires var answer := Strip(Join(Visible(s.model(2).parts)), s.reader.blank);
      answer != "" && s.reader.cites(answer) == {1} && !MetaOnly(s.reader.sentences(answer), s.reader)
    ensures Turn(s)[|Turn(s)| - 2] == Sources([Passage(1, f)])
  {
    AnswerCitesWhatWasRetrieved(s);
    OnePassage(f);
    OneSource(Strip(Join(Visible(s.model(2).parts)), s.reader.blank), AddedAll(EMPTY, [f]), f, s.reader);
  }

  lemma OneSource(answer: string, b: Book, f: Found, r: Reader)
    requires Passages.Valid(b) && b.passages == [Passage(1, f)]
    requires r.cites(answer) == {1} && !MetaOnly(r.sentences(answer), r)
    ensures CitedSources(answer, b.passages, r) == [Passage(1, f)]
  {
    SourceIsShownIff(answer, b, r, Passage(1, f));
    SourcesAreCitedPassages(answer, b, r);
    OnlyOne(CitedSources(answer, b.passages, r), Passage(1, f));
  }

  lemma OnlyOne(sources: seq<Passage>, p: Passage)
    requires Increasing(sources) && p in sources && forall q :: q in sources ==> q == p
    ensures sources == [p]
  {
    forall i | 0 <= i < |sources| ensures sources[i] == p {
      assert sources[i] in sources;
    }
    assert |sources| > 1 ==> sources[0].n < sources[1].n;
  }

  lemma OnePassage(f: Found)
    requires |f.text| <= CONTEXT_CHARS
    ensures Passages.Valid(AddedAll(EMPTY, [f])) && AddedAll(EMPTY, [f]).passages == [Passage(1, f)]
  {
    assert [f][..0] == [];
    AddKeepsBook(EMPTY, f);
  }
}
