/**
 * The profile file (orchestrator.py, _record_preference): a heading and one bullet per remembered
 * preference, read back with `splitlines`, filtered by prefix, and written again.
 */
module Preferences {
  import opened Picks

  datatype Kind = Favorite | ProjectStack | ToolSetting | PersonalFact | Workflow

  /** One extracted preference; `confidence` is the score already formatted to two places. */
  datatype Pref = Pref(kind: Kind, key: string, value: string, confidence: string)

  /** What a bullet is kept under. */
  type Slot = (Kind, string)

  function SlotOf(p: Pref): Slot { (p.kind, p.key) }

  function KindText(k: Kind): string {
    match k
    case Favorite => "favorite"
    case ProjectStack => "project_stack"
    case ToolSetting => "tool_setting"
    case PersonalFact => "personal_fact"
    case Workflow => "workflow"
  }

  function Head(k: Kind): string { "- **" + KindText(k) + "** | " }

  /** The part of a bullet after its key. */
  function Rest(p: Pref): string { ": " + p.value + " (confidence " + p.confidence + ")" }

  function Line(p: Pref): string { Head(p.kind) + (p.key + Rest(p)) }

  /** What every bullet of this slot starts with. */
  function KeyPrefix(p: Pref): string { Head(p.kind) + (p.key + ":") }

  // --- text and lines -------------------------------------------------------------------------------

  /** The characters at which `splitlines` ends a line. */
  predicate IsBreak(c: char) {
    || '\U{0A}' <= c <= '\U{0D}' || '\U{1C}' <= c <= '\U{1E}' || c == '\U{85}' || c == '\U{2028}' || c == '\U{2029}'
  }

  predicate OneLine(s: string) { forall i :: 0 <= i < |s| ==> !IsBreak(s[i]) }

  function LineEnd(s: string): (n: nat)
    ensures n <= |s| && OneLine(s[..n]) && (n < |s| ==> IsBreak(s[n]))
  {
    if s == "" || IsBreak(s[0]) then 0
    else
      var n := LineEnd(s[1..]);
      assert s[..n + 1] == [s[0]] + s[1..][..n];
      n + 1
  }

  /** How long the line end at `n` is. */
  function EndLength(s: string, n: nat): (m: nat)
    requires n <= |s|
    ensures n + m <= |s| && (m == 0 <==> n == |s|)
  {
    if n == |s| then 0 else if "\r\n" <= s[n..] then 2 else 1
  }

  function SplitLines(s: string): (lines: seq<string>)
    ensures forall i :: 0 <= i < |lines| ==> OneLine(lines[i])
    decreases |s|
  {
    if s == "" then []
    else
      var n := LineEnd(s);
      [s[..n]] + SplitLines(s[n + EndLength(s, n)..])
  }

  /** One of Python's line ends, as far as it goes: "\r\n" is one. */
  predicate IsLineEnd(end: string, rest: string) {
    end == "\r\n" || (|end| == 1 && IsBreak(end[0]) && !(end == "\r" && "\n" <= rest))
  }

  /** These lines with these ends make up the text; only the last line may be without one, and then it is not
      empty. */
  predicate CutsInto(text: string, lines: seq<string>, ends: seq<string>)
    decreases |lines|
  {
    if lines == [] then text == "" && ends == []
    else
      ends != [] && OneLine(lines[0]) && lines[0] + ends[0] <= text &&
      var rest := text[|lines[0] + ends[0]|..];
      (IsLineEnd(ends[0], rest) || (ends[0] == "" && rest == "" && lines[0] != ""))
      && CutsInto(rest, lines[1..], ends[1..])
  }

  lemma CutsOneMore(line: string, end: string, rest: string, lines: seq<string>, ends: seq<string>)
    requires OneLine(line) && (IsLineEnd(end, rest) || (end == "" && rest == "" && line != ""))
    requires CutsInto(rest, lines, ends)
    ensures CutsInto(line + end + rest, [line] + lines, [end] + ends)
  {
    var text := line + end + rest;
    assert text[|line + end|..] == rest && text[..|line + end|] == line + end;
    assert ([line] + lines)[1..] == lines && ([end] + ends)[1..] == ends;
  }

  lemma EndIs(s: string, n: nat, end: string, rest: string)
    requires n < |s| && IsBreak(s[n]) && n + EndLength(s, n) <= |s|
    requires end == s[n..n + EndLength(s, n)] && rest == s[n + EndLength(s, n)..]
    ensures IsLineEnd(end, rest)
  {
    if "\r\n" <= s[n..] {
      assert end == s[n..][..2];
    } else {
      assert s[n..] == end + rest;
    }
  }

  lemma FirstLineIs(s: string, n: nat, line: string, end: string, rest: string)
    requires s != "" && n <= |s| && OneLine(s[..n]) && (n < |s| ==> IsBreak(s[n])) && n + EndLength(s, n) <= |s|
    requires line == s[..n] && end == s[n..n + EndLength(s, n)] && rest == s[n + EndLength(s, n)..]
    ensures s == line + end + rest && OneLine(line)
    ensures IsLineEnd(end, rest) || (end == "" && rest == "" && line != "")
  {
    Pieces(s, n, n + EndLength(s, n));
    if n < |s| { EndIs(s, n, end, rest); }
  }

  lemma Pieces(s: string, n: nat, m: nat)
    requires n <= m <= |s|
    ensures s == s[..n] + s[n..m] + s[m..]
  {
  }

  /** `splitlines` cuts a text at every line end, and nowhere else. */
  lemma {:induction false} SplitLinesIs(s: string) returns (ends: seq<string>)
    ensures CutsInto(s, SplitLines(s), ends)
    decreases |s|
  {
    if s == "" {
      ends := [];
    } else {
      var n := LineEnd(s);
      var m := EndLength(s, n);
      var line, end, rest := s[..n], s[n..n + m], s[n + m..];
      FirstLineIs(s, n, line, end, rest);
      var more := SplitLinesIs(rest);
      CutsOneMore(line, end, rest, SplitLines(rest), more);
      ends := [end] + more;
    }
  }

  /** The characters that end a line, one by one. */
  lemma BreaksAre(c: char)
    ensures IsBreak(c) <==> c in [
      '\n', '\U{0B}', '\U{0C}', '\r', '\U{1C}', '\U{1D}', '\U{1E}', '\U{85}', '\U{2028}', '\U{2029}']
  {
  }

  function Join(lines: seq<string>): string {
    if lines == [] then "" else if |lines| == 1 then lines[0] else lines[0] + "\n" + Join(lines[1..])
  }

  /** The comprehension `[b for b in lines if b.startswith(p)]`, or with `not`. */
  function Filtered(lines: seq<string>, p: string, wanted: bool): (kept: seq<string>)
    ensures forall i :: 0 <= i < |kept| ==> kept[i] in lines && (p <= kept[i]) == wanted
  {
    if lines == [] then []
    else (if (p <= lines[0]) == wanted then [lines[0]] else []) + Filtered(lines[1..], p, wanted)
  }

  const BULLET := "- "
  const HEADING := "# User Preferences"

  function Bullets(text: string): seq<string> { Filtered(SplitLines(text), BULLET, true) }

  function Content(bullets: seq<string>): string { HEADING + "\n" + ("\n" + (Join(bullets) + "\n")) }

  /** The file after recording `p`. */
  function Record(existing: string, p: Pref): string {
    Content(Filtered(Bullets(existing), KeyPrefix(p), false) + [Line(p)])
  }

  // --- what is written ------------------------------------------------------------------------------

  function StartsWith(p: string, wanted: bool): string -> bool { (line: string) => (p <= line) == wanted }

  lemma {:induction false} FilteredPicks(lines: seq<string>, p: string, wanted: bool)
    ensures Filtered(lines, p, wanted) == Filter(lines, StartsWith(p, wanted))
  {
    if lines != [] { FilteredPicks(lines[1..], p, wanted); }
  }

  /** The bullets that stay are the lines that are bullets and do not start with the new one's kind and key;
      each stays, as it was, in its place. */
  lemma KeptBulletsAre(text: string, p: Pref)
    ensures PicksOut(Bullets(text), SplitLines(text), StartsWith("- ", true))
    ensures PicksOut(Filtered(Bullets(text), KeyPrefix(p), false), Bullets(text), StartsWith(KeyPrefix(p), false))
  {
    FilteredPicks(SplitLines(text), BULLET, true);
    FilteredPicks(Bullets(text), KeyPrefix(p), false);
    FilterPicksOut(SplitLines(text), StartsWith(BULLET, true));
    FilterPicksOut(Bullets(text), StartsWith(KeyPrefix(p), false));
  }

  lemma LineIs(p: Pref)
    ensures Line(p) ==
      "- **" + KindText(p.kind) + "** | " + p.key + ": " + p.value + " (confidence " + p.confidence + ")"
    ensures KeyPrefix(p) == "- **" + KindText(p.kind) + "** | " + p.key + ":"
  {
    var head := "- **" + KindText(p.kind) + "** | ";
    assert Rest(p) == ": " + p.value + " (confidence " + p.confidence + ")";
    assert Line(p) == head + p.key + Rest(p);
    assert head + p.key + Rest(p) == head + p.key + ": " + p.value + " (confidence " + p.confidence + ")";
  }

  /** Every line with its line end. */
  function Terminated(lines: seq<string>): string {
    if lines == [] then "" else lines[0] + "\n" + Terminated(lines[1..])
  }

  lemma {:induction false} JoinedIsTerminated(lines: seq<string>)
    requires lines != []
    ensures Join(lines) + "\n" == Terminated(lines)
  {
    if |lines| > 1 {
      JoinedIsTerminated(lines[1..]);
      assert Join(lines) + "\n" == lines[0] + "\n" + (Join(lines[1..]) + "\n");
    } else {
      assert Terminated(lines[1..]) == "";
    }
  }

  /** The file is the heading, an empty line, and the bullets, each on its own line, the new one last. */
  lemma FileIs(existing: string, p: Pref)
    ensures var bullets := Filtered(Bullets(existing), KeyPrefix(p), false) + [Line(p)];
      Record(existing, p) == "# User Preferences\n\n" + Terminated(bullets)
  {
    var bullets := Filtered(Bullets(existing), KeyPrefix(p), false) + [Line(p)];
    JoinedIsTerminated(bullets);
    assert HEADING + "\n" + ("\n" + (Join(bullets) + "\n")) == "# User Preferences\n\n" + (Join(bullets) + "\n");
  }

  // --- reading back what was written ----------------------------------------------------------------

  lemma {:induction false} EndOfLine(l: string, rest: string)
    requires OneLine(l)
    ensures LineEnd(l + "\n" + rest) == |l|
  {
    var s := l + "\n" + rest;
    if l == "" {
      assert s[0] == '\n';
    } else {
      EndOfLine(l[1..], rest);
      assert s[1..] == l[1..] + "\n" + rest;
      assert s[0] == l[0];
    }
  }

  lemma LineThenRest(l: string, rest: string)
    requires OneLine(l)
    ensures SplitLines(l + "\n" + rest) == [l] + SplitLines(rest)
  {
    var s := l + "\n" + rest;
    EndOfLine(l, rest);
    assert s[..|l|] == l && s[|l|] == '\n' && s[|l| + 1..] == rest;
    assert s[|l|..][0] == '\n';
  }

  lemma {:induction false} JoinedLinesSplit(lines: seq<string>)
    requires lines != [] && forall i :: 0 <= i < |lines| ==> OneLine(lines[i])
    ensures SplitLines(Join(lines) + "\n") == lines
  {
    var rest := lines[1..];
    if rest == [] {
      LineThenRest(lines[0], "");
      assert lines[0] + "\n" + "" == Join(lines) + "\n";
    } else {
      JoinedLinesSplit(rest);
      LineThenRest(lines[0], Join(rest) + "\n");
      assert lines[0] + "\n" + (Join(rest) + "\n") == Join(lines) + "\n";
    }
  }

  lemma {:induction false} AllKept(lines: seq<string>, p: string, wanted: bool)
    requires forall i :: 0 <= i < |lines| ==> (p <= lines[i]) == wanted
    ensures Filtered(lines, p, wanted) == lines
  {
    if lines != [] { AllKept(lines[1..], p, wanted); }
  }

  lemma BlankLine(body: string)
    ensures SplitLines("\n" + body) == [""] + SplitLines(body)
  {
    var s := "\n" + body;
    assert s[0] == '\n' && s[1..] == body && s[0..] == s;
  }

  lemma HeadedLinesSplit(h: string, body: string)
    requires OneLine(h)
    ensures SplitLines(h + "\n" + ("\n" + body)) == [h] + ([""] + SplitLines(body))
  {
    LineThenRest(h, "\n" + body);
    BlankLine(body);
  }

  lemma HeadIsDropped(h: string, bullets: seq<string>)
    requires !(BULLET <= h)
    ensures Filtered([h] + ([""] + bullets), BULLET, true) == Filtered(bullets, BULLET, true)
  {
    var lines := [h] + ([""] + bullets);
    assert lines[1..] == [""] + bullets && lines[1..][1..] == bullets;
  }

  lemma HeadedBulletsReadBack(h: string, bullets: seq<string>)
    requires OneLine(h) && !(BULLET <= h)
    requires bullets != [] && forall i :: 0 <= i < |bullets| ==> BULLET <= bullets[i] && OneLine(bullets[i])
    ensures Bullets(h + "\n" + ("\n" + (Join(bullets) + "\n"))) == bullets
  {
    HeadedLinesSplit(h, Join(bullets) + "\n");
    JoinedLinesSplit(bullets);
    HeadIsDropped(h, bullets);
    AllKept(bullets, BULLET, true);
  }

  lemma HeadingIsPlain()
    ensures OneLine(HEADING) && !(BULLET <= HEADING)
  {
    assert HEADING[0] == '#';
  }

  /** A file written from bullets gives the same bullets back. */
  lemma ContentReadsBack(bullets: seq<string>)
    requires bullets != [] && forall i :: 0 <= i < |bullets| ==> BULLET <= bullets[i] && OneLine(bullets[i])
    ensures Bullets(Content(bullets)) == bullets
  {
    HeadingIsPlain();
    HeadedBulletsReadBack(HEADING, bullets);
  }

  lemma KeptAreBullets(text: string, p: Pref)
    ensures var kept := Filtered(Bullets(text), KeyPrefix(p), false);
      forall i :: 0 <= i < |kept| ==> BULLET <= kept[i] && OneLine(kept[i])
  {
    var kept := Filtered(Bullets(text), KeyPrefix(p), false);
    forall i | 0 <= i < |kept| ensures BULLET <= kept[i] && OneLine(kept[i]) {
      assert kept[i] in Bullets(text);
      assert kept[i] in SplitLines(text);
    }
  }

  lemma BulletsAreLines(text: string)
    ensures forall i :: 0 <= i < |Bullets(text)| ==> OneLine(Bullets(text)[i])
  {
    forall i | 0 <= i < |Bullets(text)| ensures OneLine(Bullets(text)[i]) {
      assert Bullets(text)[i] in SplitLines(text);
    }
  }

  lemma LineIsABullet(p: Pref)
    ensures BULLET <= Line(p)
  {
    assert Line(p)[..2] == BULLET;
  }

  /** Whatever the file held, the next reader finds the other bullets and the new one - exactly
      when the new one has no line break in it. */
  lemma RecordedIsReadBackIff(text: string, p: Pref)
    ensures Bullets(Record(text, p)) == Filtered(Bullets(text), KeyPrefix(p), false) + [Line(p)] <==> OneLine(Line(p))
  {
    var kept := Filtered(Bullets(text), KeyPrefix(p), false);
    var all := kept + [Line(p)];
    KeptAreBullets(text, p);
    LineIsABullet(p);
    BulletsAreLines(Record(text, p));
    assert all[|kept|] == Line(p);
    if OneLine(Line(p)) { ContentReadsBack(all); }
  }

  // --- which bullets a recording replaces -----------------------------------------------------------

  /** Two texts cut at the first `c` can only be compared piece by piece. */
  lemma {:induction false} CutAtDelimiter(a: string, x: string, b: string, y: string, c: char)
    requires c !in a && c !in b
    ensures a + [c] + x <= b + [c] + y <==> a == b && x <= y
  {
    var s, t := a + [c] + x, b + [c] + y;
    if a == "" || b == "" {
      assert s[0] == if a == "" then c else a[0];
      assert t[0] == if b == "" then c else b[0];
      if a == b {
        assert s[1..] == x && t[1..] == y;
        assert s == [c] + x && t == [c] + y;
        SamePrefix([c], x, y);
      }
    } else {
      CutAtDelimiter(a[1..], x, b[1..], y, c);
      assert s == [a[0]] + (a[1..] + [c] + x) && t == [b[0]] + (b[1..] + [c] + y);
      if a[0] == b[0] { SamePrefix([a[0]], a[1..] + [c] + x, b[1..] + [c] + y); }
      assert s[0] == a[0] && t[0] == b[0];
      assert a == [a[0]] + a[1..] && b == [b[0]] + b[1..];
    }
  }

  lemma SamePrefix(p: string, x: string, y: string)
    ensures p + x <= p + y <==> x <= y
  {
    var s, t := p + x, p + y;
    if |x| <= |y| {
      assert s[|p|..] == x && t[|p|..] == y;
      assert t[..|s|] == p + y[..|x|];
    }
  }

  lemma KindsHaveNoStar(k: Kind)
    ensures '*' !in KindText(k)
  {
  }

  lemma KindsDiffer(k: Kind, k': Kind)
    ensures KindText(k) == KindText(k') <==> k == k'
  {
    assert |KindText(Favorite)| == |KindText(Workflow)| == 8 && KindText(Favorite)[0] != KindText(Workflow)[0];
    assert |KindText(ProjectStack)| == |KindText(PersonalFact)| == 13;
    assert KindText(ProjectStack)[1] != KindText(PersonalFact)[1];
    assert |KindText(ToolSetting)| == 12;
  }

  /** The same under a common beginning, and with a longer delimiter. */
  lemma CutBetween(h: string, a: string, x: string, b: string, y: string, m: string)
    requires m != "" && m[0] !in a && m[0] !in b
    ensures h + a + m + x <= h + b + m + y <==> a == b && x <= y
  {
    var c, t := m[0], m[1..];
    CutAtDelimiter(a, t + x, b, t + y, c);
    SamePrefix(t, x, y);
    SamePrefix(h, a + [c] + (t + x), b + [c] + (t + y));
    assert m == [c] + t;
    assert h + a + m + x == h + (a + [c] + (t + x));
    assert h + b + m + y == h + (b + [c] + (t + y));
  }

  lemma PrefixMatchesIff(p: Pref, q: Pref)
    ensures KeyPrefix(p) <= Line(q) <==> p.kind == q.kind && p.key + ":" <= q.key + Rest(q)
  {
    KindsHaveNoStar(p.kind);
    KindsHaveNoStar(q.kind);
    KindsDiffer(p.kind, q.kind);
    CutBetween("- **", KindText(p.kind), p.key + ":", KindText(q.kind), q.key + Rest(q), "** | ");
  }

  /** The keys `k` under which recording may replace a bullet kept under `k'`. */
  predicate Clash(k: string, k': string) { k == k' || k + ":" <= k' || k' + ": " <= k }

  /** Recording under one key can replace a bullet of another exactly when the keys clash: they are
      equal, or one goes on from the other after a colon. */
  lemma ReplacesIff(p: Pref, kind: Kind, key: string)
    ensures (exists v, c :: KeyPrefix(p) <= Line(Pref(kind, key, v, c))) <==> p.kind == kind && Clash(p.key, key)
  {
    if v, c :| KeyPrefix(p) <= Line(Pref(kind, key, v, c)) {
      var q := Pref(kind, key, v, c);
      PrefixMatchesIff(p, q);
      MatchedKeysClash(p.key, key, Rest(q));
    }
    if p.kind == kind && Clash(p.key, key) {
      var v := if key + ": " <= p.key then p.key[|key| + 2..] + ":" else "";
      var q := Pref(kind, key, v, "");
      ClashingKeysMatch(p.key, q);
      PrefixMatchesIff(p, q);
      assert KeyPrefix(p) <= Line(Pref(kind, key, v, ""));
    }
  }

  lemma MatchedKeysClash(k: string, k': string, rest: string)
    requires ": " <= rest && k + ":" <= k' + rest
    ensures Clash(k, k')
  {
    var s, t := k + ":", k' + rest;
    assert s == t[..|s|];
    if |k| < |k'| {
      assert k' == t[..|k'|];
      assert s == k'[..|s|];
    } else if |k| == |k'| {
      assert k == s[..|k|] == t[..|k|] == k';
    } else {
      assert t[|k'|] == ':' && t[|k'| + 1] == ' ';
      assert s[|k|] == ':' && |k| != |k'| + 1;
      assert k == s[..|k|] == t[..|k|];
      assert k[..|k'| + 2] == k' + ": ";
    }
  }

  lemma ClashingKeysMatch(k: string, q: Pref)
    requires Clash(k, q.key)
    requires q.key + ": " <= k ==> q.value == k[|q.key| + 2..] + ":"
    ensures k + ":" <= q.key + Rest(q)
  {
    if q.key + ": " <= k {
      assert k == q.key + ": " + k[|q.key| + 2..];
      assert q.key + Rest(q) == k + ":" + (" (confidence " + q.confidence + ")");
    } else if k == q.key {
      assert q.key + Rest(q) == k + ":" + Rest(q)[1..];
    } else {
      assert q.key == k + ":" + q.key[|k| + 1..];
    }
  }

  lemma ContainsColon(k: string, k': string)
    ensures k + ":" <= k' ==> ':' in k'
  {
    if k + ":" <= k' { assert k'[|k|] == ':'; }
  }

  /** Keys without a colon clash only with themselves. */
  lemma PlainKeysClashIff(k: string, k': string)
    requires ':' !in k && ':' !in k'
    ensures Clash(k, k') <==> k == k'
  {
    ContainsColon(k, k');
    ContainsColon(k', k);
    assert k' + ": " <= k ==> k' + ":" <= k' + ": " <= k;
  }

  /** A longer key loses its bullet whatever value it holds: "a" replaces "a:b". */
  lemma ColonKeyIsReplaced(kind: Kind, v: string, c: string, v': string, c': string)
    ensures KeyPrefix(Pref(kind, "a", v, c)) <= Line(Pref(kind, "a:b", v', c'))
  {
    var p, q := Pref(kind, "a", v, c), Pref(kind, "a:b", v', c');
    ClashingKeysMatch("a", q);
    PrefixMatchesIff(p, q);
  }

  // --- a map with one bullet per slot ---------------------------------------------------------------

  function Lines(ps: seq<Pref>): (lines: seq<string>)
    ensures |lines| == |ps| && forall i :: 0 <= i < |ps| ==> lines[i] == Line(ps[i])
  {
    seq(|ps|, i requires 0 <= i < |ps| => Line(ps[i]))
  }

  function Without(ps: seq<Pref>, s: Slot): (r: seq<Pref>)
    ensures forall p :: p in r <==> p in ps && SlotOf(p) != s
    ensures Distinct(ps) ==> Distinct(r)
  {
    if ps == [] then []
    else
      var r := Without(ps[1..], s);
      assert forall p :: p in ps <==> p == ps[0] || p in ps[1..];
      if SlotOf(ps[0]) == s then r else [ps[0]] + r
  }

  /** One bullet per slot. */
  predicate Distinct(ps: seq<Pref>) {
    forall i, j :: 0 <= i < j < |ps| ==> SlotOf(ps[i]) != SlotOf(ps[j])
  }

  predicate Plain(p: Pref) { OneLine(Line(p)) }

  predicate Apart(p: Pref, q: Pref) { p.kind == q.kind && Clash(p.key, q.key) ==> p.key == q.key }

  lemma ReplacesOnlyItsSlot(p: Pref, q: Pref)
    requires Apart(p, q)
    ensures KeyPrefix(p) <= Line(q) <==> SlotOf(q) == SlotOf(p)
  {
    PrefixMatchesIff(p, q);
    if KeyPrefix(p) <= Line(q) { MatchedKeysClash(p.key, q.key, Rest(q)); }
    if SlotOf(q) == SlotOf(p) { ClashingKeysMatch'(p.key, q); }
  }

  lemma LinesCons(q: Pref, rest: seq<Pref>)
    ensures Lines([q] + rest) == [Line(q)] + Lines(rest)
  {
  }

  lemma {:induction false} OnlyTheSlotIsDropped(ps: seq<Pref>, p: Pref)
    requires forall q :: q in ps ==> Apart(p, q)
    ensures Filtered(Lines(ps), KeyPrefix(p), false) == Lines(Without(ps, SlotOf(p)))
  {
    if ps != [] {
      var q, rest := ps[0], ps[1..];
      assert q in ps;
      OnlyTheSlotIsDropped(rest, p);
      ReplacesOnlyItsSlot(p, q);
      LinesCons(q, rest);
      assert ps == [q] + rest && Lines(ps)[1..] == Lines(rest);
      LinesCons(q, Without(rest, SlotOf(p)));
    }
  }

  lemma ClashingKeysMatch'(k: string, q: Pref)
    requires k == q.key
    ensures k + ":" <= q.key + Rest(q)
  {
    assert q.key + Rest(q) == k + ":" + Rest(q)[1..];
  }

  /** The file after a run of recordings; it is missing at first. */
  function FileAfter(rs: seq<Pref>): string
    decreases |rs|
  {
    if rs == [] then "" else Record(FileAfter(rs[..|rs| - 1]), rs[|rs| - 1])
  }

  /** What ought to be remembered: the last preference of every slot, oldest update first. */
  function Latest(rs: seq<Pref>): (ps: seq<Pref>)
    ensures Distinct(ps) && forall p :: p in ps ==> p in rs
    decreases |rs|
  {
    if rs == [] then []
    else
      var p := rs[|rs| - 1];
      assert forall q :: q in rs[..|rs| - 1] ==> q in rs;
      Without(Latest(rs[..|rs| - 1]), SlotOf(p)) + [p]
  }

  function Remembered(rs: seq<Pref>): map<Slot, Pref>
    decreases |rs|
  {
    if rs == [] then map[] else Remembered(rs[..|rs| - 1])[SlotOf(rs[|rs| - 1]) := rs[|rs| - 1]]
  }

  /** `ps` lists exactly the entries of `m`. */
  predicate Lists(ps: seq<Pref>, m: map<Slot, Pref>) {
    && (forall p :: p in ps ==> SlotOf(p) in m && m[SlotOf(p)] == p)
    && forall s :: s in m ==> m[s] in ps && SlotOf(m[s]) == s
  }

  lemma {:induction false} LatestListsRemembered(rs: seq<Pref>)
    ensures Lists(Latest(rs), Remembered(rs))
    decreases |rs|
  {
    if rs != [] { LatestListsRemembered(rs[..|rs| - 1]); }
  }

  lemma SlotIsReplaced(bullets: seq<string>, after: seq<string>, ps: seq<Pref>, p: Pref)
    requires bullets == Lines(ps) && forall q :: q in ps ==> Apart(p, q)
    requires after == Filtered(bullets, KeyPrefix(p), false) + [Line(p)]
    ensures after == Lines(Without(ps, SlotOf(p)) + [p])
  {
    OnlyTheSlotIsDropped(ps, p);
    var kept := Without(ps, SlotOf(p));
    assert Lines(kept + [p]) == Lines(kept) + [Line(p)];
  }

  lemma RecordReplacesTheSlot(text: string, ps: seq<Pref>, p: Pref)
    requires Bullets(text) == Lines(ps) && Plain(p) && forall q :: q in ps ==> Apart(p, q)
    ensures Bullets(Record(text, p)) == Lines(Without(ps, SlotOf(p)) + [p])
  {
    RecordedIsReadBackIff(text, p);
    SlotIsReplaced(Bullets(text), Bullets(Record(text, p)), ps, p);
  }

  /** Recording refines a map update: while no two recorded keys clash, the file always holds the
      last preference of every slot, one bullet each, and nothing else. */
  lemma {:induction false} RecordingsRefineAMap(rs: seq<Pref>)
    requires forall p :: p in rs ==> Plain(p)
    requires forall p, q :: p in rs && q in rs ==> Apart(p, q)
    ensures Bullets(FileAfter(rs)) == Lines(Latest(rs))
    ensures Distinct(Latest(rs)) && Lists(Latest(rs), Remembered(rs))
    decreases |rs|
  {
    LatestListsRemembered(rs);
    if rs != [] {
      var n := |rs| - 1;
      var before := rs[..n];
      assert rs[n] in rs && forall q :: q in before ==> q in rs;
      RecordingsRefineAMap(before);
      RecordReplacesTheSlot(FileAfter(before), Latest(before), rs[n]);
    }
  }

  /** In particular for keys without a colon. */
  lemma PlainKeysRefineAMap(rs: seq<Pref>)
    requires forall p :: p in rs ==> Plain(p) && ':' !in p.key
    ensures Bullets(FileAfter(rs)) == Lines(Latest(rs))
    ensures Distinct(Latest(rs)) && Lists(Latest(rs), Remembered(rs))
  {
    forall p, q | p in rs && q in rs ensures Apart(p, q) { PlainKeysClashIff(p.key, q.key); }
    RecordingsRefineAMap(rs);
  }
}
