/**
 * One Knowledge-chat turn (knowledge_chat.py, run): rounds of a streaming model with tools, text
 * held back until something has been retrieved, drafts from memory thrown away.
 *
 * What the model streams in each round, whether its stream fails, and what its tools retrieve are
 * arbitrary functions of the round, so the results hold for every model and every library.
 */
module ChatTurn {
  import opened Calls
  import opened Passages

  /** Set by the deployment. */
  const MAX_ROUNDS: int
  const MAX_CALLS_PER_ROUND := 6
  const MEMORY_ANSWER_CHARS := 80

  const PARAGRAPH := "\n\n"

  /** The three fixed notices; their wording plays no part. */
  const NOT_CONFIGURED: string
  const UNREACHABLE: string
  const NO_ANSWER: string

  /** One streamed part: a tool call, or text that may be the model's private thought. */
  datatype Part = Part(call: Option<Call>, text: string, thought: bool)

  /** What one model round streams, and whether the stream then fails. */
  datatype Stream = Stream(parts: seq<Part>, failed: bool)

  datatype Event =
    | Token(text: string)
    | ToolCalled(call: Call)
    | Sources(passages: seq<Passage>)
    | Ended(completed: bool)

  /** The outside world of one turn. */
  datatype Setting = Setting(
    reader: Reader, history: bool,
    model: nat -> Stream,           // by round
    retrieved: nat -> seq<Found>)   // by round: additions of its tool calls, in order of arrival

  function Visible(parts: seq<Part>): seq<string> {
    if parts == [] then []
    else Visible(parts[..|parts| - 1]) +
         (var p := parts[|parts| - 1]; if p.call == None && p.text != "" && !p.thought then [p.text] else [])
  }

  function CallsOf(parts: seq<Part>): seq<Call> {
    if parts == [] then []
    else CallsOf(parts[..|parts| - 1]) + (if parts[|parts| - 1].call.Some? then [parts[|parts| - 1].call.value] else [])
  }

  function Join(texts: seq<string>): string {
    if texts == [] then "" else Join(texts[..|texts| - 1]) + texts[|texts| - 1]
  }

  function Tokens(texts: seq<string>): (t: seq<Event>)
    ensures |t| == |texts| && forall i :: 0 <= i < |texts| ==> t[i] == Token(texts[i])
  {
    seq(|texts|, i requires 0 <= i < |texts| => Token(texts[i]))
  }

  function ToolCalls(calls: seq<Call>): (t: seq<Event>)
    ensures |t| == |calls| && forall i :: 0 <= i < |calls| ==> t[i] == ToolCalled(calls[i])
  {
    seq(|calls|, i requires 0 <= i < |calls| => ToolCalled(calls[i]))
  }

  /** A text-only answer that cites, or is long in a conversation with history. */
  predicate Ungrounded(answer: string, s: Setting) {
    s.reader.cites(answer) != {} || (s.history && |answer| > MEMORY_ANSWER_CHARS)
  }

  /** The history of one round: whether tools had run before it, whether it was forced to call tools,
      what it showed, and the draft it threw away. */
  datatype Round = Round(number: nat, toolsBefore: bool, forced: bool, shown: seq<string>, discarded: Option<string>)

  datatype Chat = Chat(
    answer: seq<string>, toolsCalled: bool, forceTools: bool, book: Book, events: seq<Event>, rounds: seq<Round>)

  const NEW_CHAT := Chat([], false, false, EMPTY, [], [])

  datatype Progress = Going(chat: Chat) | Stopped(chat: Chat) | Broken(chat: Chat)

  /** Append shown text to the answer and to the events. */
  function Say(c: Chat, texts: seq<string>): Chat {
    c.(answer := c.answer + texts, events := c.events + Tokens(texts))
  }

  function Note(c: Chat, was: Chat, number: nat, shown: seq<string>, discarded: Option<string>): Chat {
    c.(rounds := was.rounds + [Round(number, was.toolsCalled, was.forceTools, shown, discarded)])
  }

  function First<T>(items: seq<T>, n: nat): seq<T> { if |items| <= n then items else items[..n] }

  /** The tools of a round run, and what they retrieve is put in the book. */
  function CallTools(c: Chat, calls: seq<Call>, found: seq<Found>): Chat {
    c.(forceTools := false, toolsCalled := true, events := c.events + ToolCalls(calls), book := AddedAll(c.book, found))
  }

  /** A round whose stream showed these texts and asked for these calls. */
  function Settle(c: Chat, number: nat, s: Setting, texts: seq<string>, calls: seq<Call>, failed: bool): Progress {
    var enabled := number <= MAX_ROUNDS;
    var buffering := !c.toolsCalled && enabled;
    var held := if buffering then texts else [];
    var streamed := if buffering then [] else texts;
    var c1 := Say(c, streamed);
    if failed then
      var noted := Note(c1, c, number, streamed, None);
      if c1.answer != [] then Stopped(noted) else Broken(noted)
    else if calls == [] then
      var heldText := Join(held);
      if buffering && !c.forceTools && Ungrounded(heldText, s) then
        Going(Note(c1.(forceTools := true), c, number, [], Some(heldText)))
      else
        var last := if heldText != "" then [heldText] else [];
        Stopped(Note(Say(c1, last), c, number, streamed + last, None))
    else if !enabled then Stopped(Note(c1, c, number, streamed, None))
    else
      var c2 := CallTools(c1, First(calls, MAX_CALLS_PER_ROUND), s.retrieved(number));
      var gap := if streamed != [] then [PARAGRAPH] else [];
      Going(Note(Say(c2, gap), c, number, streamed + gap, None))
  }

  function OneRound(c: Chat, number: nat, s: Setting): Progress {
    var stream := s.model(number);
    Settle(c, number, s, Visible(stream.parts), CallsOf(stream.parts), stream.failed)
  }

  /** The rounds from this one on. */
  function Play(p: Progress, number: nat, s: Setting): Progress
    decreases MAX_ROUNDS + 2 - number
  {
    if number > MAX_ROUNDS + 1 || !p.Going? then p else Play(OneRound(p.chat, number, s), number + 1, s)
  }

  function Played(s: Setting): Progress { Play(Going(NEW_CHAT), 1, s) }

  function StripLeft(text: string, blank: char -> bool): string {
    if text != "" && blank(text[0]) then StripLeft(text[1..], blank) else text
  }

  function StripRight(text: string, blank: char -> bool): string {
    if text != "" && blank(text[|text| - 1]) then StripRight(text[..|text| - 1], blank) else text
  }

  function Strip(text: string, blank: char -> bool): string { StripRight(StripLeft(text, blank), blank) }

  /** `strip` cuts blanks off both ends, and all of them. */
  lemma StripIs(text: string, blank: char -> bool) returns (a: nat, b: nat)
    ensures a <= b <= |text| && Strip(text, blank) == text[a..b]
    ensures forall i :: 0 <= i < a || b <= i < |text| ==> blank(text[i])
    ensures a < b ==> !blank(text[a]) && !blank(text[b - 1])
  {
    a := LeftIs(text, blank);
    var n := RightIs(text[a..], blank);
    b := a + n;
    assert forall i :: n <= i < |text[a..]| ==> text[a..][i] == text[a + i];
    assert text[a..][..n] == text[a..b];
    if n > 0 { assert text[a..][n - 1] == text[b - 1]; }
    forall i | b <= i < |text| ensures blank(text[i]) {
      assert text[a..][i - a] == text[i];
    }
  }

  lemma {:induction false} LeftIs(text: string, blank: char -> bool) returns (n: nat)
    ensures n <= |text| && StripLeft(text, blank) == text[n..] && (n < |text| ==> !blank(text[n]))
    ensures forall i :: 0 <= i < n ==> blank(text[i])
  {
    if text != "" && blank(text[0]) {
      var rest := LeftIs(text[1..], blank);
      n := rest + 1;
    } else {
      n := 0;
    }
  }

  lemma {:induction false} RightIs(text: string, blank: char -> bool) returns (n: nat)
    ensures n <= |text| && StripRight(text, blank) == text[..n] && (n > 0 ==> !blank(text[n - 1]))
    ensures forall i :: n <= i < |text| ==> blank(text[i])
    decreases |text|
  {
    n := |text|;
    if text != "" && blank(text[n - 1]) { n := RightIs(text[..n - 1], blank); }
  }

  function Ending(p: Progress, s: Setting): seq<Event> {
    if p.Broken? then [Token(UNREACHABLE), Ended(false)]
    else
      var answer := Strip(Join(p.chat.answer), s.reader.blank);
      if answer == "" then [Token(NO_ANSWER), Sources([]), Ended(true)]
      else [Sources(CitedSources(answer, p.chat.book.passages, s.reader)), Ended(true)]
  }

  function Turn(s: Setting): seq<Event> {
    var p := Played(s);
    p.chat.events + Ending(p, s)
  }

  // --- the code -------------------------------------------------------------------------------------

  /** The inner loop collects the texts to show or hold, and the calls. */
  method ReadStream(parts: seq<Part>) returns (texts: seq<string>, calls: seq<Call>)
    ensures texts == Visible(parts) && calls == CallsOf(parts)
  {
    texts, calls := [], [];
    for k := 0 to |parts|
      invariant texts == Visible(parts[..k]) && calls == CallsOf(parts[..k])
    {
      var part := parts[k];
      assert parts[..k + 1][..k] == parts[..k];
      if part.call.Some? {
        calls := calls + [part.call.value];
      } else if part.text != "" && !part.thought {
        texts := texts + [part.text];
      }
    }
    assert parts[..|parts|] == parts;
  }

  /** The rest of the round. */
  method SettleRound(c: Chat, number: nat, s: Setting, texts: seq<string>, asked: seq<Call>, failed: bool)
    returns (p: Progress)
    ensures p == Settle(c, number, s, texts, asked, failed)
  {
    var toolsEnabled := number <= MAX_ROUNDS;
    var buffering := !c.toolsCalled && toolsEnabled;
    var held: seq<string>, streamed: seq<string> := [], [];
    if buffering { held := texts; } else { streamed := texts; }
    var chat := Say(c, streamed);
    if failed {
      chat := Note(chat, c, number, streamed, None);
      if chat.answer != [] {
        return Stopped(chat);
      }
      return Broken(chat);
    }
    var heldText := Join(held);
    if asked == [] {
      if buffering && !c.forceTools && Ungrounded(heldText, s) {
        chat := chat.(forceTools := true);
        return Going(Note(chat, c, number, [], Some(heldText)));
      }
      var last: seq<string> := [];
      if heldText != "" { last := [heldText]; }
      chat := Say(chat, last);
      return Stopped(Note(chat, c, number, streamed + last, None));
    }
    if !toolsEnabled {
      return Stopped(Note(chat, c, number, streamed, None));
    }
    chat := chat.(forceTools := false, toolsCalled := true);
    var calls := First(asked, MAX_CALLS_PER_ROUND);
    chat := chat.(events := chat.events + ToolCalls(calls));
    chat := chat.(book := AddedAll(chat.book, s.retrieved(number)));
    var gap: seq<string> := [];
    if streamed != [] { gap := [PARAGRAPH]; }
    chat := Say(chat, gap);
    p := Going(Note(chat, c, number, streamed + gap, None));
  }

  method PlayRound(c: Chat, number: nat, s: Setting) returns (p: Progress)
    ensures p == OneRound(c, number, s)
  {
    var stream := s.model(number);
    var texts, calls := ReadStream(stream.parts);
    p := SettleRound(c, number, s, texts, calls, stream.failed);
  }

  /** The round loop. */
  method PlayRounds(s: Setting) returns (p: Progress)
    ensures p == Played(s)
  {
    p := Going(NEW_CHAT);
    var number := 1;
    while number <= MAX_ROUNDS + 1 && p.Going?
      invariant 1 <= number && Play(p, number, s) == Played(s)
      decreases MAX_ROUNDS + 2 - number
    {
      p := PlayRound(p.chat, number, s);
      number := number + 1;
    }
  }

  method Run(client: bool, s: Setting) returns (events: seq<Event>)
    ensures events == if client then Turn(s) else [Token(NOT_CONFIGURED), Ended(false)]
  {
    if !client {
      return [Token(NOT_CONFIGURED), Ended(false)];
    }
    var p := PlayRounds(s);
    events := p.chat.events;
    if p.Broken? {
      return events + [Token(UNREACHABLE), Ended(false)];
    }
    var answer := Strip(Join(p.chat.answer), s.reader.blank);
    if answer == "" {
      return events + [Token(NO_ANSWER), Sources([]), Ended(true)];
    }
    events := events + [Sources(CitedSources(answer, p.chat.book.passages, s.reader)), Ended(true)];
  }

  // --- what every round keeps -----------------------------------------------------------------------

  predicate Streaming(e: Event) { e.Token? || e.ToolCalled? }

  /** All text the reader was shown. */
  function TokenText(events: seq<Event>): string {
    if events == [] then ""
    else TokenText(events[..|events| - 1]) + (if events[|events| - 1].Token? then events[|events| - 1].text else "")
  }

  lemma {:induction false} TokenTextJoin(a: seq<Event>, b: seq<Event>)
    ensures TokenText(a + b) == TokenText(a) + TokenText(b)
    decreases |b|
  {
    if b == [] {
      assert a + b == a;
    } else {
      var n := |b| - 1;
      assert (a + b)[..|a + b| - 1] == a + b[..n];
      TokenTextJoin(a, b[..n]);
    }
  }

  lemma {:induction false} TokenTextOfTokens(texts: seq<string>)
    ensures TokenText(Tokens(texts)) == Join(texts)
    decreases |texts|
  {
    if texts != [] {
      var n := |texts| - 1;
      assert Tokens(texts)[..n] == Tokens(texts[..n]);
      TokenTextOfTokens(texts[..n]);
    }
  }

  lemma {:induction false} TokenTextOfCalls(calls: seq<Call>)
    ensures TokenText(ToolCalls(calls)) == ""
    decreases |calls|
  {
    if calls != [] {
      var n := |calls| - 1;
      assert ToolCalls(calls)[..n] == ToolCalls(calls[..n]);
      TokenTextOfCalls(calls[..n]);
    }
  }

  lemma {:induction false} JoinJoin(a: seq<string>, b: seq<string>)
    ensures Join(a + b) == Join(a) + Join(b)
    decreases |b|
  {
    if b == [] {
      assert a + b == a;
    } else {
      var n := |b| - 1;
      assert (a + b)[..|a + b| - 1] == a + b[..n];
      JoinJoin(a, b[..n]);
    }
  }

  lemma JoinOne(text: string)
    ensures Join([text]) == text
  {
    assert [text][..0] == [];
  }

  lemma SilentEnding(passages: seq<Passage>)
    ensures TokenText([Sources(passages), Ended(true)]) == ""
  {
    var e := [Sources(passages), Ended(true)];
    assert e[..1] == [e[0]] && e[..1][..0] == [];
    assert TokenText(e[..1]) == "";
  }

  /** The events so far stream exactly the answer so far. */
  predicate Faithful(c: Chat) {
    (forall i :: 0 <= i < |c.events| ==> Streaming(c.events[i])) && TokenText(c.events) == Join(c.answer)
  }

  lemma SayKeepsFaithful(c: Chat, texts: seq<string>)
    requires Faithful(c)
    ensures Faithful(Say(c, texts))
  {
    TokenTextJoin(c.events, Tokens(texts));
    TokenTextOfTokens(texts);
    JoinJoin(c.answer, texts);
  }

  lemma CallsKeepFaithful(c: Chat, calls: seq<Call>)
    requires Faithful(c)
    ensures Faithful(c.(events := c.events + ToolCalls(calls)))
  {
    TokenTextJoin(c.events, ToolCalls(calls));
    TokenTextOfCalls(calls);
  }

  /** What the rounds showed, in order. */
  function ShownBy(rounds: seq<Round>): seq<string> {
    if rounds == [] then [] else ShownBy(rounds[..|rounds| - 1]) + rounds[|rounds| - 1].shown
  }

  predicate RoundOk(r: Round, s: Setting) {
    && r.number <= MAX_ROUNDS + 1
    // only the first round's draft is ever thrown away, and then that round shows nothing
    && (r.discarded.Some? ==> r.number == 1 && r.shown == [] && !r.toolsBefore && Ungrounded(r.discarded.value, s))
    // text shown before any tool has run is grounded, or the model had been told to retrieve first
    && (MAX_ROUNDS >= 1 && !r.toolsBefore && r.shown != [] ==> r.forced || !Ungrounded(Join(r.shown), s))
    // the tool-less last round comes only after a tool call
    && (MAX_ROUNDS >= 2 && r.number > MAX_ROUNDS ==> r.toolsBefore)
  }

  predicate ChatInv(c: Chat, number: nat, s: Setting) {
    && |c.rounds| + 1 == number && Valid(c.book) && Faithful(c) && c.answer == ShownBy(c.rounds)
    && forall i :: 0 <= i < |c.rounds| ==> c.rounds[i].number == i + 1 && RoundOk(c.rounds[i], s)
  }

  /** Every round that leads to another has called tools, or was the first and threw its draft away. */
  predicate GoingInv(c: Chat) {
    && (c.forceTools ==> !c.toolsCalled && |c.rounds| == 1)
    && (!c.toolsCalled && !c.forceTools ==> c.rounds == [])
  }

  lemma NoteKeepsInv(c: Chat, was: Chat, number: nat, s: Setting, shown: seq<string>, discarded: Option<string>)
    requires ChatInv(was, number, s) && Valid(c.book) && Faithful(c) && c.answer == was.answer + shown
    requires RoundOk(Round(number, was.toolsCalled, was.forceTools, shown, discarded), s)
    ensures ChatInv(Note(c, was, number, shown, discarded), number + 1, s)
  {
    var n := Note(c, was, number, shown, discarded);
    assert n.rounds[..|was.rounds|] == was.rounds;
    assert Faithful(n);
  }

  predicate InRound(c: Chat, number: nat, s: Setting) {
    ChatInv(c, number, s) && GoingInv(c) && 1 <= number <= MAX_ROUNDS + 1
  }

  predicate Kept(p: Progress, number: nat, s: Setting) {
    ChatInv(p.chat, number + 1, s) && (p.Going? ==> GoingInv(p.chat))
  }

  function Streamed(c: Chat, number: nat, texts: seq<string>): seq<string> {
    if !c.toolsCalled && number <= MAX_ROUNDS then [] else texts
  }

  /** What was streamed without a tool call in this turn was streamed in a forced round. */
  lemma StreamedIsOk(c: Chat, number: nat, s: Setting, texts: seq<string>, gap: seq<string>)
    requires InRound(c, number, s) && (gap != [] ==> Streamed(c, number, texts) != [])
    ensures RoundOk(Round(number, c.toolsCalled, c.forceTools, Streamed(c, number, texts) + gap, None), s)
  {
  }

  lemma CutShortKeepsInv(c: Chat, number: nat, s: Setting, texts: seq<string>, calls: seq<Call>, failed: bool)
    requires InRound(c, number, s) && (failed || (calls != [] && number > MAX_ROUNDS))
    ensures Kept(Settle(c, number, s, texts, calls, failed), number, s)
  {
    var streamed := Streamed(c, number, texts);
    SayKeepsFaithful(c, streamed);
    StreamedIsOk(c, number, s, texts, []);
    assert streamed + [] == streamed;
    NoteKeepsInv(Say(c, streamed), c, number, s, streamed, None);
  }

  lemma DiscardKeepsInv(c: Chat, number: nat, s: Setting, heldText: string)
    requires InRound(c, number, s) && !c.toolsCalled && !c.forceTools && Ungrounded(heldText, s)
    ensures Kept(Going(Note(Say(c, []).(forceTools := true), c, number, [], Some(heldText))), number, s)
  {
    SayKeepsFaithful(c, []);
    NoteKeepsInv(Say(c, []).(forceTools := true), c, number, s, [], Some(heldText));
  }

  lemma SayNothing(c: Chat)
    ensures Say(c, []) == c
  {
    assert c.answer + [] == c.answer && c.events + Tokens([]) == c.events;
  }

  lemma KeepDraftKeepsInv(c: Chat, number: nat, s: Setting, last: seq<string>)
    requires InRound(c, number, s) && !c.toolsCalled && number <= MAX_ROUNDS && |last| <= 1
    requires c.forceTools || (last != [] ==> !Ungrounded(last[0], s))
    ensures Kept(Stopped(Note(Say(Say(c, []), last), c, number, [] + last, None)), number, s)
  {
    SayNothing(c);
    assert [] + last == last;
    SayKeepsFaithful(c, last);
    if last != [] { JoinOne(last[0]); assert last == [last[0]]; }
    NoteKeepsInv(Say(c, last), c, number, s, last, None);
  }

  lemma DraftKeepsInv(c: Chat, number: nat, s: Setting, texts: seq<string>)
    requires InRound(c, number, s) && !c.toolsCalled && number <= MAX_ROUNDS
    ensures Kept(Settle(c, number, s, texts, [], false), number, s)
  {
    var heldText := Join(texts);
    if !c.forceTools && Ungrounded(heldText, s) {
      DiscardKeepsInv(c, number, s, heldText);
    } else {
      KeepDraftKeepsInv(c, number, s, if heldText != "" then [heldText] else []);
    }
  }

  lemma AnswerKeepsInv(c: Chat, number: nat, s: Setting, texts: seq<string>)
    requires InRound(c, number, s) && !(!c.toolsCalled && number <= MAX_ROUNDS)
    ensures Kept(Settle(c, number, s, texts, [], false), number, s)
  {
    SayKeepsFaithful(c, texts);
    SayKeepsFaithful(Say(c, texts), []);
    StreamedIsOk(c, number, s, texts, []);
    assert texts + [] == texts && Say(Say(c, texts), []) == Say(c, texts);
    NoteKeepsInv(Say(c, texts), c, number, s, texts, None);
  }

  lemma CallToolsKeepsChat(c: Chat, calls: seq<Call>, found: seq<Found>)
    requires Faithful(c) && Valid(c.book)
    ensures var c' := CallTools(c, calls, found); Faithful(c') && Valid(c'.book) && c'.answer == c.answer
  {
    CallsKeepFaithful(c, calls);
    EveryInterleavingKeepsBook(c.book, found);
    assert CallTools(c, calls, found).events == c.(events := c.events + ToolCalls(calls)).events;
  }

  /** The chat after a round that called tools. */
  function AfterTools(c: Chat, streamed: seq<string>, calls: seq<Call>, found: seq<Found>): Chat {
    Say(CallTools(Say(c, streamed), calls, found), Gap(streamed))
  }

  function Gap(streamed: seq<string>): seq<string> { if streamed != [] then [PARAGRAPH] else [] }

  lemma ToolsSettle(c: Chat, number: nat, s: Setting, texts: seq<string>, calls: seq<Call>)
    requires calls != [] && number <= MAX_ROUNDS
    ensures var streamed := Streamed(c, number, texts);
      Settle(c, number, s, texts, calls, false) ==
        Going(Note(AfterTools(c, streamed, First(calls, MAX_CALLS_PER_ROUND), s.retrieved(number)), c, number,
                   streamed + Gap(streamed), None))
  {
  }

  lemma AfterToolsKeepsChat(c: Chat, streamed: seq<string>, calls: seq<Call>, found: seq<Found>)
    requires Faithful(c) && Valid(c.book)
    ensures var c' := AfterTools(c, streamed, calls, found);
      && Faithful(c') && Valid(c'.book) && c'.answer == c.answer + (streamed + Gap(streamed))
      && c'.toolsCalled && !c'.forceTools
  {
    SayKeepsFaithful(c, streamed);
    var c1 := Say(c, streamed);
    CallToolsKeepsChat(c1, calls, found);
    SayKeepsFaithful(CallTools(c1, calls, found), Gap(streamed));
    assert c.answer + streamed + Gap(streamed) == c.answer + (streamed + Gap(streamed));
  }

  lemma NotedToolsKeepInv(c: Chat, c': Chat, number: nat, s: Setting, shown: seq<string>)
    requires InRound(c, number, s) && Faithful(c') && Valid(c'.book) && c'.answer == c.answer + shown
    requires c'.toolsCalled && !c'.forceTools && RoundOk(Round(number, c.toolsCalled, c.forceTools, shown, None), s)
    ensures Kept(Going(Note(c', c, number, shown, None)), number, s)
  {
    NoteKeepsInv(c', c, number, s, shown, None);
  }

  lemma ToolsKeepInv(c: Chat, number: nat, s: Setting, texts: seq<string>, calls: seq<Call>)
    requires InRound(c, number, s) && calls != [] && number <= MAX_ROUNDS
    ensures Kept(Settle(c, number, s, texts, calls, false), number, s)
  {
    var streamed := Streamed(c, number, texts);
    var made := First(calls, MAX_CALLS_PER_ROUND);
    ToolsSettle(c, number, s, texts, calls);
    AfterToolsKeepsChat(c, streamed, made, s.retrieved(number));
    StreamedIsOk(c, number, s, texts, Gap(streamed));
    NotedToolsKeepInv(c, AfterTools(c, streamed, made, s.retrieved(number)), number, s, streamed + Gap(streamed));
  }

  predicate ChatOk(c: Chat, s: Setting) { ChatInv(c, |c.rounds| + 1, s) }

  predicate ProgressOk(p: Progress, number: nat, s: Setting) {
    ChatOk(p.chat, s) && (p.Going? ==> number == |p.chat.rounds| + 1 && GoingInv(p.chat))
  }

  lemma OneRoundKeepsInv(c: Chat, number: nat, s: Setting)
    requires InRound(c, number, s)
    ensures ProgressOk(OneRound(c, number, s), number + 1, s)
  {
    var stream := s.model(number);
    var texts, calls := Visible(stream.parts), CallsOf(stream.parts);
    if stream.failed || (calls != [] && number > MAX_ROUNDS) {
      CutShortKeepsInv(c, number, s, texts, calls, stream.failed);
    } else if calls != [] {
      ToolsKeepInv(c, number, s, texts, calls);
    } else if !c.toolsCalled && number <= MAX_ROUNDS {
      DraftKeepsInv(c, number, s, texts);
    } else {
      AnswerKeepsInv(c, number, s, texts);
    }
  }

  lemma {:induction false} PlayKeepsInv(p: Progress, number: nat, s: Setting)
    requires ProgressOk(p, number, s)
    ensures ChatOk(Play(p, number, s).chat, s)
    decreases MAX_ROUNDS + 2 - number
  {
    if p.Going? && number <= MAX_ROUNDS + 1 {
      OneRoundKeepsInv(p.chat, number, s);
      PlayKeepsInv(OneRound(p.chat, number, s), number + 1, s);
    }
  }

  lemma PlayedOk(s: Setting)
    ensures ChatOk(Played(s).chat, s)
  {
    PlayKeepsInv(Going(NEW_CHAT), 1, s);
  }

  // --- what a turn guarantees -----------------------------------------------------------------------

  /** Grounding. At most one draft is thrown away, the first; it is shown to nobody. What is shown
      without a tool call in the turn is grounded or comes from the round that had been told to
      retrieve; the tool-less last round comes only after a tool call; no more than MAX_ROUNDS + 1
      rounds are played. (RoundOk says for which MAX_ROUNDS each holds.) */
  lemma TurnsAreGrounded(s: Setting)
    ensures var c := Played(s).chat;
      && |c.rounds| <= (if MAX_ROUNDS >= 0 then MAX_ROUNDS + 1 else 0)
      && c.answer == ShownBy(c.rounds)
      && (forall i :: 0 <= i < |c.rounds| ==> c.rounds[i].number == i + 1 && RoundOk(c.rounds[i], s))
      && (forall i :: 0 < i < |c.rounds| ==> c.rounds[i].discarded == None)
  {
    PlayedOk(s);
    var c := Played(s).chat;
    assert c.rounds != [] ==> RoundOk(c.rounds[|c.rounds| - 1], s);
  }

  /** The trace: tokens and tool calls, then one ending - sources and "completed", or "error". */
  predicate WellTraced(events: seq<Event>, n: nat) {
    && n < |events| && (forall i :: 0 <= i < n ==> Streaming(events[i]))
    && (events[n..] == [Ended(false)] || (n + 2 == |events| && events[n].Sources? && events[n + 1] == Ended(true)))
  }

  lemma TurnsAreWellTraced(s: Setting)
    ensures exists n :: WellTraced(Turn(s), n)
  {
    PlayedOk(s);
    var n := ProgressIsWellTraced(Played(s), s);
    assert WellTraced(Turn(s), n);
  }

  lemma ProgressIsWellTraced(p: Progress, s: Setting) returns (n: nat)
    requires Faithful(p.chat)
    ensures WellTraced(p.chat.events + Ending(p, s), n)
  {
    EndingIsProper(p, s);
    n := ProperEnding(p.chat.events, Ending(p, s));
  }

  /** At most one more token, then how the turn ended. */
  predicate Proper(ending: seq<Event>) {
    || (|ending| == 2 && ending[0].Token? && ending[1] == Ended(false))
    || (|ending| == 2 && ending[0].Sources? && ending[1] == Ended(true))
    || (|ending| == 3 && ending[0].Token? && ending[1].Sources? && ending[2] == Ended(true))
  }

  lemma EndingIsProper(p: Progress, s: Setting)
    ensures Proper(Ending(p, s))
  {
  }

  lemma ProperEnding(events: seq<Event>, ending: seq<Event>) returns (n: nat)
    requires Proper(ending) && forall i :: 0 <= i < |events| ==> Streaming(events[i])
    ensures WellTraced(events + ending, n)
  {
    n := |events| + if ending[0].Token? then 1 else 0;
    assert (events + ending)[n..] == ending[n - |events|..];
  }

  /** When there is an answer, the tokens add up to exactly the text whose citations are the sources,
      and every source is a passage of this turn that the answer cites. */
  lemma SourcesMatchWhatWasShown(s: Setting)
    requires var p := Played(s); !p.Broken? && Strip(Join(p.chat.answer), s.reader.blank) != ""
    ensures var answer := Strip(TokenText(Turn(s)), s.reader.blank);
      var sources := CitedSources(answer, Played(s).chat.book.passages, s.reader);
      && Turn(s) == Played(s).chat.events + [Sources(sources), Ended(true)]
      && forall p :: p in sources ==> p in Played(s).chat.book.passages && p.n in s.reader.cites(answer)
  {
    PlayedOk(s);
    EndingMatches(Played(s), s);
    SourcesAreCitedPassages(Strip(TokenText(Turn(s)), s.reader.blank), Played(s).chat.book, s.reader);
  }

  lemma EndingMatches(p: Progress, s: Setting)
    requires ChatOk(p.chat, s) && !p.Broken? && Strip(Join(p.chat.answer), s.reader.blank) != ""
    ensures TokenText(p.chat.events + Ending(p, s)) == Join(p.chat.answer)
    ensures var answer := Strip(Join(p.chat.answer), s.reader.blank);
      Ending(p, s) == [Sources(CitedSources(answer, p.chat.book.passages, s.reader)), Ended(true)]
  {
    var sources := CitedSources(Strip(Join(p.chat.answer), s.reader.blank), p.chat.book.passages, s.reader);
    SilentEnding(sources);
    TokenTextJoin(p.chat.events, [Sources(sources), Ended(true)]);
  }
}
