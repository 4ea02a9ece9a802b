/**
 * The earlier turns and the new question as the model is given them (knowledge_chat.py,
 * history_contents): roles must alternate and begin with the user, and nothing may be lost on
 * the way but what the code says it drops.
 *
 * A merged turn's text is its pieces joined by blank lines; it is kept here as the pieces.
 */
module ChatHistory {
  import opened Picks

  /** Set by the deployment. */
  const HISTORY_TURNS: int

  datatype Role = User | Model

  /** An earlier turn, its text already stripped. */
  datatype Said = Said(role: Role, text: string)

  datatype Content = Content(role: Role, pieces: seq<string>)

  /** Python's `history[-HISTORY_TURNS:]`. */
  function Recent<T>(history: seq<T>): seq<T> {
    if HISTORY_TURNS > 0 then (if HISTORY_TURNS >= |history| then history else history[|history| - HISTORY_TURNS..])
    else if -HISTORY_TURNS >= |history| then [] else history[-HISTORY_TURNS..]
  }

  /** The last turns, as many as the deployment says; all of them for zero, and for a negative number all but
      so many of the first. */
  lemma RecentIs<T>(history: seq<T>)
    ensures |Recent(history)| <= |history| && Recent(history) == history[|history| - |Recent(history)|..]
    ensures HISTORY_TURNS > 0 ==> |Recent(history)| == if |history| < HISTORY_TURNS then |history| else HISTORY_TURNS
    ensures HISTORY_TURNS == 0 ==> Recent(history) == history
    ensures HISTORY_TURNS < 0 ==>
      |Recent(history)| == if |history| + HISTORY_TURNS < 0 then 0 else |history| + HISTORY_TURNS
  {
  }

  predicate HasText(said: Said) { said.text != "" }

  lemma {:induction false} NonEmptyIsFiltered(turns: seq<Said>)
    ensures NonEmpty(turns) == Filter(turns, HasText)
    decreases |turns|
  {
    if turns != [] {
      var front, last := turns[..|turns| - 1], turns[|turns| - 1];
      NonEmptyIsFiltered(front);
      assert turns == front + [last];
      FilterOfBoth(front, [last], HasText);
      FilterOne(last, HasText);
    }
  }

  /** What is kept of the recent turns: those with text, in their order, from the first that is the user's. */
  lemma KeptTurnsAre(recent: seq<Said>) returns (n: nat)
    ensures PicksOut(NonEmpty(recent), recent, HasText)
    ensures n <= |NonEmpty(recent)| && FromFirstUser(NonEmpty(recent)) == NonEmpty(recent)[n..]
    ensures forall i :: 0 <= i < n ==> NonEmpty(recent)[i].role == Model
    ensures n < |NonEmpty(recent)| ==> NonEmpty(recent)[n].role == User
  {
    NonEmptyIsFiltered(recent);
    FilterPicksOut(recent, HasText);
    n := FirstUserIs(NonEmpty(recent));
  }

  lemma {:induction false} FirstUserIs(turns: seq<Said>) returns (n: nat)
    ensures n <= |turns| && FromFirstUser(turns) == turns[n..]
    ensures (forall i :: 0 <= i < n ==> turns[i].role == Model) && (n < |turns| ==> turns[n].role == User)
  {
    if turns == [] || turns[0].role == User {
      n := 0;
    } else {
      var rest := FirstUserIs(turns[1..]);
      n := rest + 1;
    }
  }

  predicate Alternating(cs: seq<Content>) { forall i :: 0 < i < |cs| ==> cs[i].role != cs[i - 1].role }

  function NonEmpty(turns: seq<Said>): seq<Said> {
    if turns == [] then []
    else NonEmpty(turns[..|turns| - 1]) + (if turns[|turns| - 1].text == "" then [] else [turns[|turns| - 1]])
  }

  /** The same text, piece by piece, under its role. */
  function Flatten(cs: seq<Content>): seq<Said> {
    if cs == [] then []
    else Flatten(cs[..|cs| - 1]) + Spoken(cs[|cs| - 1])
  }

  function Spoken(c: Content): (s: seq<Said>)
    ensures |s| == |c.pieces| && forall i :: 0 <= i < |s| ==> s[i] == Said(c.role, c.pieces[i])
  {
    seq(|c.pieces|, i requires 0 <= i < |c.pieces| => Said(c.role, c.pieces[i]))
  }

  /** What is left once the model turns before the first user turn are dropped. */
  function FromFirstUser(turns: seq<Said>): seq<Said> {
    if turns == [] || turns[0].role == User then turns else FromFirstUser(turns[1..])
  }

  predicate WellFormed(cs: seq<Content>) { Alternating(cs) && forall i :: 0 <= i < |cs| ==> cs[i].pieces != [] }

  /** Add one turn, merging it into the last if the role is the same. */
  function Append(cs: seq<Content>, said: Said): seq<Content> {
    if cs != [] && cs[|cs| - 1].role == said.role
    then cs[..|cs| - 1] + [Content(said.role, cs[|cs| - 1].pieces + [said.text])]
    else cs + [Content(said.role, [said.text])]
  }

  lemma AppendKeepsForm(cs: seq<Content>, said: Said)
    requires WellFormed(cs)
    ensures WellFormed(Append(cs, said)) && Flatten(Append(cs, said)) == Flatten(cs) + [said]
    ensures Append(cs, said)[|Append(cs, said)| - 1].role == said.role
    ensures cs != [] ==> Append(cs, said)[0].role == cs[0].role
  {
    var out := Append(cs, said);
    var n := |out| - 1;
    if cs != [] && cs[|cs| - 1].role == said.role {
      assert out[..n] == cs[..n];
      assert Spoken(out[n]) == Spoken(cs[n]) + [said];
    } else {
      assert out[..n] == cs;
      assert Spoken(out[n]) == [said];
    }
  }

  lemma {:induction false} FirstUserAcross(a: seq<Said>, b: seq<Said>)
    requires forall s :: s in a ==> s.role == Model
    requires b == [] || b[0].role == User
    ensures FromFirstUser(a + b) == b
  {
    if a == [] {
      assert a + b == b;
    } else {
      assert (a + b)[1..] == a[1..] + b;
      FirstUserAcross(a[1..], b);
    }
  }

  lemma FlattenLast(cs: seq<Content>)
    requires cs != []
    ensures Flatten(cs) == Flatten(cs[..|cs| - 1]) + Spoken(cs[|cs| - 1])
  {
  }

  lemma FlattenStep(cs: seq<Content>, n: nat)
    requires 0 < n < |cs| && Flatten(cs[..n]) == Spoken(cs[0]) + Flatten(cs[1..n])
    ensures Flatten(cs[..n + 1]) == Spoken(cs[0]) + Flatten(cs[1..n + 1])
  {
    FlattenLast(cs[..n + 1]);
    FlattenLast(cs[1..n + 1]);
    assert cs[..n + 1][..n] == cs[..n] && cs[1..n + 1][..n - 1] == cs[1..n];
    Regroup(Spoken(cs[0]), Flatten(cs[1..n]), Spoken(cs[n]));
  }

  lemma {:induction false} FlattenFromTo(cs: seq<Content>, n: nat)
    requires 0 < n <= |cs|
    ensures Flatten(cs[..n]) == Spoken(cs[0]) + Flatten(cs[1..n])
  {
    if n == 1 {
      assert cs[..1][..0] == [] && cs[1..1] == [];
    } else {
      FlattenFromTo(cs, n - 1);
      FlattenStep(cs, n - 1);
    }
  }

  lemma FlattenFrom(cs: seq<Content>)
    requires cs != []
    ensures Flatten(cs) == Spoken(cs[0]) + Flatten(cs[1..])
  {
    FlattenFromTo(cs, |cs|);
    assert cs[..|cs|] == cs && cs[1..|cs|] == cs[1..];
  }

  /** In an alternating list only the first turn can stand before the first user turn. */
  lemma DropLeadingModel(cs: seq<Content>)
    requires WellFormed(cs) && cs != [] && cs[0].role == Model
    ensures FromFirstUser(Flatten(cs)) == Flatten(cs[1..])
    ensures WellFormed(cs[1..]) && (cs[1..] != [] ==> cs[1..][0].role == User)
  {
    FlattenFrom(cs);
    if cs[1..] != [] { FlattenFrom(cs[1..]); }
    FirstUserAcross(Spoken(cs[0]), Flatten(cs[1..]));
  }

  /** Add one turn, or go on with the last if it has the same role. */
  method Extended(turns: seq<Content>, t: Said) returns (more: seq<Content>)
    requires WellFormed(turns)
    ensures WellFormed(more) && Flatten(more) == Flatten(turns) + [t]
    ensures more != [] && more[|more| - 1].role == t.role && (turns != [] ==> more[0].role == turns[0].role)
  {
    AppendKeepsForm(turns, t);
    if turns != [] && turns[|turns| - 1].role == t.role {
      more := turns[..|turns| - 1] + [Content(t.role, turns[|turns| - 1].pieces + [t.text])];
    } else {
      more := turns + [Content(t.role, [t.text])];
    }
  }

  method HistoryContents(history: seq<Said>, question: string) returns (turns: seq<Content>)
    ensures turns != [] && Alternating(turns) && turns[0].role == User && turns[|turns| - 1].role == User
    ensures Flatten(turns) == FromFirstUser(NonEmpty(Recent(history))) + [Said(User, question)]
  {
    var recent := Recent(history);
    turns := [];
    for k := 0 to |recent|
      invariant WellFormed(turns) && Flatten(turns) == NonEmpty(recent[..k])
    {
      var t := recent[k];
      assert recent[..k + 1][..k] == recent[..k];
      if t.text == "" {
        continue;
      }
      turns := Extended(turns, t);
    }
    assert recent[..|recent|] == recent;
    ghost var kept := FromFirstUser(Flatten(turns));
    while turns != [] && turns[0].role != User
      invariant WellFormed(turns) && FromFirstUser(Flatten(turns)) == kept
      decreases |turns|
    {
      DropLeadingModel(turns);
      if turns[1..] != [] { FlattenFrom(turns[1..]); }
      turns := turns[1..];
    }
    if turns != [] { FlattenFrom(turns); }
    turns := Extended(turns, Said(User, question));
  }
}
