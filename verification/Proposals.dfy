/**
 * The life of a proposal over whole conversations (orchestrator.py, the write gate): what makes a stored
 * plan stand, what may end it, and why a turn about something else keeps a later "yes" from firing it.
 */
module Proposals {
  import opened Calls
  import opened PendingPlans
  import opened Router
  import opened Runs
  import opened Conversations

  lemma {:induction false} TranscriptIsEmptyIff(log: seq<Event>, u: nat)
    ensures Transcript(log, u) == [] <==> forall q :: 0 <= q < |log| ==> log[q].turn != u
    decreases |log|
  {
    if log != [] {
      var n := |log| - 1;
      TranscriptIsEmptyIff(log[..n], u);
      assert forall q :: 0 <= q < n ==> log[..n][q] == log[q];
    }
  }

  /** Where a turn's first event stands in the log. */
  lemma {:induction false} FirstPlace(log: seq<Event>, u: nat) returns (p: nat)
    requires Transcript(log, u) != []
    ensures p < |log| && log[p] == Transcript(log, u)[0] && log[p].turn == u
    ensures forall q :: 0 <= q < p ==> log[q].turn != u
    decreases |log|
  {
    var n := |log| - 1;
    TranscriptIsEmptyIff(log[..n], u);
    if Transcript(log[..n], u) != [] {
      p := FirstPlace(log[..n], u);
      assert forall q :: 0 <= q < p ==> log[..n][q] == log[q];
    } else {
      p := n;
      assert forall q :: 0 <= q < n ==> log[..n][q] == log[q];
    }
  }

  /** The log only grows, and a turn keeps the intent it began with. */
  lemma {:induction false} HistoryStays(t0: int, actions: seq<Action>, m: nat, v: World, w: World)
    requires m <= |actions| && After(t0, actions[..m]) == Some(v) && After(t0, actions) == Some(w)
    ensures v.log <= w.log && forall t :: t in v.turns ==> t in w.turns && w.turns[t].s.intent == v.turns[t].s.intent
    decreases |actions|
  {
    if m == |actions| {
      assert actions[..m] == actions;
    } else {
      var last := |actions| - 1;
      assert actions[..last][..m] == actions[..m];
      var u := After(t0, actions[..last]).value;
      HistoryStays(t0, actions[..last], m, v, u);
      StepKeepsHistory(u, actions[last]);
    }
  }

  lemma StepKeepsHistory(w: World, a: Action)
    requires Enabled(w, a)
    ensures var w' := Step(w, a);
      w.log <= w'.log && forall t :: t in w.turns ==> t in w'.turns && w'.turns[t].s.intent == w.turns[t].s.intent
  {
    if a.Go? { AdvanceKeepsIntent(w.turns[a.turn], Input(a.oracle, w.slots, w.now, |w.log|, a.composition)); }
  }

  lemma AdvanceKeepsIntent(r: Run, x: Input)
    requires !Terminal(r)
    ensures Advance(r, x).run.s.intent == r.s.intent
  {
  }

  /** A turn that had not been routed by the time of `v1` has no event before that. */
  lemma UnroutedHasNoEvents(t0: int, actions: seq<Action>, v: World, u: nat)
    requires After(t0, actions) == Some(v) && (u !in v.turns || !PastTheGate(v.turns[u]))
    ensures forall q :: 0 <= q < |v.log| ==> v.log[q].turn != u
  {
    ReachableLog(t0, actions, v);
    if u in v.turns {
      ReachableTurn(t0, actions, v, u);
      TranscriptIsEmptyIff(v.log, u);
    }
  }

  lemma NotAmong(before: seq<Event>, log: seq<Event>, u: nat, p: nat)
    requires before <= log && p < |log| && log[p].turn == u && forall q :: 0 <= q < |before| ==> before[q].turn != u
    ensures p >= |before|
  {
    assert forall q :: 0 <= q < |before| ==> before[q] == log[q];
  }

  /** Safety: a turn about something else, once routed, always keeps a later "yes" from firing the plan
      that was on record. If such a turn of the same chat is routed between the moment when the proposal
      at `j` stood and a release at `i`, what is released is another, later proposal. */
  lemma UnrelatedTurnEndsProposal(t0: int, actions: seq<Action>, n1: nat, n2: nat, v1: World, v2: World, w: World,
                                  u: nat, j: nat, i: nat)
    returns (j': nat)
    requires n1 <= n2 <= |actions| && After(t0, actions) == Some(w)
    requires After(t0, actions[..n1]) == Some(v1) && After(t0, actions[..n2]) == Some(v2)
    requires j < |v1.log| && v1.log[j].Proposed? && (u !in v1.turns || !PastTheGate(v1.turns[u]))
    requires u in v2.turns && PastTheGate(v2.turns[u])
    requires !ConfirmationGiven(v2.turns[u].s.intent) && ChatKey(v2.turns[u].s.intent) == v1.log[j].key
    requires |v2.log| <= i < |w.log| && w.log[i].Released? && w.log[i].key == v1.log[j].key
    ensures |v1.log| <= j' < i && w.log[j'].Proposed?
    ensures w.log[j'].key == w.log[i].key && w.log[j'].plan == w.log[i].plan
    ensures forall m :: j' < m < i ==> !TouchesSlot(w.log[m], w.log[i].key)
  {
    assert actions[..n2][..n1] == actions[..n1];
    HistoryStays(t0, actions[..n2], n1, v1, v2);
    HistoryStays(t0, actions, n2, v2, w);
    UnroutedHasNoEvents(t0, actions[..n1], v1, u);
    ReachableTurn(t0, actions[..n2], v2, u);
    var p := FirstPlace(v2.log, u);
    NotAmong(v1.log, v2.log, u, p);
    ProposalsSurviveTheirTurn(t0, actions[..n2], v2, u, 0);
    assert w.log[p] == v2.log[p] && TouchesSlot(w.log[p], w.log[i].key);
    j' := ReleaseIsTheLastProposal(t0, actions, w, i);
  }

  lemma {:induction false} FirstTouch(log: seq<Event>, k: Key, j: nat, n: nat) returns (m: nat)
    requires j < n < |log| && TouchesSlot(log[n], k)
    ensures j < m <= n && TouchesSlot(log[m], k) && forall q :: j < q < m ==> !TouchesSlot(log[q], k)
    decreases n
  {
    m := n;
    if q :| j < q < n && TouchesSlot(log[q], k) { m := FirstTouch(log, k, j, q); }
  }

  /** The copy that the proposal at `j` put into the slot. */
  function CopyOf(log: seq<Event>, j: nat): Copy
    requires j < |log| && log[j].Proposed?
  {
    Copy(j, log[j].plan, Some(log[j].at + PLAN_TTL_S))
  }

  predicate Untouched(log: seq<Event>, j: nat, n: nat)
    requires j < n <= |log| && log[j].Proposed?
  {
    forall m :: j < m < n ==> !TouchesSlot(log[m], log[j].key)
  }

  lemma StandsInLogIff(log: seq<Event>, j: nat)
    requires j < |log| && log[j].Proposed?
    ensures Lookup(Replay(log), log[j].key) == Some(CopyOf(log, j)) <==> Untouched(log, j, |log|)
  {
    if Untouched(log, j, |log|) {
      UntouchedProposalStays(log, j);
    } else if Lookup(Replay(log), log[j].key) == Some(CopyOf(log, j)) {
      var j' := SlotComesFromItsLastProposal(log, log[j].key);
    }
  }

  /** A proposal stands - its copy is what the slot holds - exactly as long as nothing has touched the
      slot since. */
  lemma ProposalStandsIff(t0: int, actions: seq<Action>, w: World, j: nat)
    requires After(t0, actions) == Some(w) && j < |w.log| && w.log[j].Proposed?
    ensures Lookup(w.slots, w.log[j].key) == Some(CopyOf(w.log, j)) <==> Untouched(w.log, j, |w.log|)
  {
    ReachableLog(t0, actions, w);
    StandsInLogIff(w.log, j);
  }

  /** The turn had asked the store for a plan before the event at `j`. */
  predicate AskedBefore(log: seq<Event>, turn: nat, j: nat)
    requires j <= |log|
  {
    exists p :: 0 <= p < j && log[p].turn == turn && (log[p].Released? || log[p].NoPlan?)
  }

  /** What may end the proposal at `j` by touching the slot at `m`. */
  predicate Ends(w: World, j: nat, m: nat)
    requires j < m < |w.log| && w.log[j].Proposed? && w.log[m].turn in w.turns
  {
    match w.log[m]
    case Released(_, _, plan, at) => plan == w.log[j].plan && at < w.log[j].at + PLAN_TTL_S
    case NoPlan(_, _, at) => at >= w.log[j].at + PLAN_TTL_S
    case Proposed(_, _, _, _) => true
    case Dropped(t, _, _) => !ConfirmationGiven(w.turns[t].s.intent) || AskedBefore(w.log, t, j)
    case Executed(_, _, _, _) => false
  }

  /** The first touch of a proposal's slot is a release of it in time, a miss after it has expired, a
      newer proposal, or a clearing. */
  lemma FirstTouchIs(log: seq<Event>, j: nat, m: nat)
    requires j < m < |log| && log[j].Proposed? && Untouched(log, j, m) && TouchesSlot(log[m], log[j].key)
    requires Sound(log, j) && Sound(log, m)
    ensures match log[m]
      case Released(_, _, plan, at) => plan == log[j].plan && at < log[j].at + PLAN_TTL_S
      case NoPlan(_, _, at) => at >= log[j].at + PLAN_TTL_S
      case Proposed(_, _, _, _) => true
      case Dropped(_, _, _) => true
      case Executed(_, _, _, _) => false
  {
    var before := log[..m];
    assert before[j] == log[j];
    assert forall q :: j < q < m ==> before[q] == log[q];
    UntouchedProposalStays(before, j);
  }

  /** A live proposal ends in one of these ways only: it is released, call for call and in time; a
      go-ahead finds it expired; a newer proposal replaces it; or a turn clears it that is not a go-ahead
      - or that is one, overlapping in the same chat, which had asked for its plan before this proposal
      was made. */
  lemma ProposalEndsOnlySo(t0: int, actions: seq<Action>, w: World, j: nat) returns (m: nat)
    requires After(t0, actions) == Some(w) && j < |w.log| && w.log[j].Proposed?
    requires Lookup(w.slots, w.log[j].key) != Some(CopyOf(w.log, j))
    ensures j < m < |w.log| && TouchesSlot(w.log[m], w.log[j].key) && Untouched(w.log, j, m)
    ensures w.log[m].turn in w.turns && Ends(w, j, m)
  {
    ReachableLog(t0, actions, w);
    StandsInLogIff(w.log, j);
    var n :| j < n < |w.log| && TouchesSlot(w.log[n], w.log[j].key);
    m := FirstTouch(w.log, w.log[j].key, j, n);
    FirstTouchIs(w.log, j, m);
    var t := w.log[m].turn;
    if w.log[m].Dropped? {
      ReachableTurn(t0, actions, w, t);
      ClearerIsNoGoAhead(w.log, w.turns[t], j, m);
    }
  }

  /** The first of several events of a go-ahead turn is what the take answered. */
  lemma GoAheadTurnAsksFirst(t: nat, turn: seq<Event>, r: Run)
    requires TurnInv(t, turn, r) && ConfirmationGiven(r.s.intent) && turn != [] && (|turn| == 1 ==> !turn[0].Proposed?)
    ensures turn[0].Released? || turn[0].NoPlan?
  {
    assert WellOrdered(turn, 0, r);
  }

  lemma TurnIsNotOne(log: seq<Event>, t: nat, p: nat, m: nat)
    requires p <= m < |log| && log[p].turn == log[m].turn == t && log[m].Dropped?
    requires Transcript(log, t) != [] && log[p] == Transcript(log, t)[0]
    ensures |Transcript(log, t)| == 1 ==> !Transcript(log, t)[0].Proposed?
  {
    if p < m { LaterEventIsLater(log, t, m, p); }
  }

  lemma GoAheadTurnAsked(log: seq<Event>, t: nat, r: Run, m: nat) returns (p: nat)
    requires m < |log| && log[m].turn == t && log[m].Dropped?
    requires TurnInv(t, Transcript(log, t), r) && ConfirmationGiven(r.s.intent)
    ensures p < m && log[p].turn == t && log[p].key == log[m].key && (log[p].Released? || log[p].NoPlan?)
  {
    TranscriptIsEmptyIff(log, t);
    p := FirstPlace(log, t);
    EventHasAKey(log, t, r, m);
    EventHasAKey(log, t, r, p);
    TurnIsNotOne(log, t, p, m);
    GoAheadTurnAsksFirst(t, Transcript(log, t), r);
  }

  lemma AskedEarlier(log: seq<Event>, j: nat, m: nat, p: nat)
    requires j < m < |log| && log[j].Proposed? && Untouched(log, j, m)
    requires p < m && log[p].turn == log[m].turn && log[p].key == log[j].key && (log[p].Released? || log[p].NoPlan?)
    ensures AskedBefore(log, log[m].turn, j)
  {
    assert TouchesSlot(log[p], log[j].key);
  }

  lemma ClearerIsNoGoAhead(log: seq<Event>, r: Run, j: nat, m: nat)
    requires j < m < |log| && log[j].Proposed? && log[m].Dropped? && log[m].key == log[j].key && Untouched(log, j, m)
    requires TurnInv(log[m].turn, Transcript(log, log[m].turn), r)
    ensures !ConfirmationGiven(r.s.intent) || AskedBefore(log, log[m].turn, j)
  {
    if ConfirmationGiven(r.s.intent) {
      var p := GoAheadTurnAsked(log, log[m].turn, r, m);
      AskedEarlier(log, j, m, p);
    }
  }

  lemma EventHasAKey(log: seq<Event>, t: nat, r: Run, m: nat)
    requires m < |log| && log[m].turn == t && Ordered(t, Transcript(log, t), r)
    ensures log[m].key == ChatKey(r.s.intent)
  {
    var i := PlaceInTranscript(log, t, m);
  }

  lemma {:induction false} PlaceInTranscript(log: seq<Event>, t: nat, m: nat) returns (i: nat)
    requires m < |log| && log[m].turn == t
    ensures i < |Transcript(log, t)| && Transcript(log, t)[i] == log[m]
    decreases |log|
  {
    var n := |log| - 1;
    if m < n {
      assert log[..n][m] == log[m];
      i := PlaceInTranscript(log[..n], t, m);
    } else {
      i := |Transcript(log[..n], t)|;
    }
  }

  lemma {:induction false} LaterEventIsLater(log: seq<Event>, t: nat, m: nat, p: nat)
    requires m < |log| && log[m].turn == t && p < |log| && log[p].turn == t && p < m
    ensures |Transcript(log, t)| >= 2
    decreases |log|
  {
    var n := |log| - 1;
    if m < n {
      assert log[..n][m] == log[m] && log[..n][p] == log[p];
      LaterEventIsLater(log[..n], t, m, p);
    } else {
      assert log[..n][p] == log[p];
      TranscriptIsEmptyIff(log[..n], t);
    }
  }

  // --- a batch nobody was shown ---------------------------------------------------------------------

  lemma Then(t0: int, xs: seq<Action>, w: World, a: Action) returns (r: (seq<Action>, World))
    requires After(t0, xs) == Some(w) && Enabled(w, a)
    ensures r == (xs + [a], Step(w, a)) && After(t0, r.0) == Some(r.1)
  {
    r := (xs + [a], Step(w, a));
    assert r.0[..|xs|] == xs;
  }

  /** A native router that asks for one call. */
  function Asking(c: Call): Oracle {
    var failed := Failed(Auth, FREE);
    Oracle(true, NativeCalls([c], true, FREE), failed, failed, failed)
  }

  lemma FirstVisitTakesNothing(i: Intent, c: Call, now: int, id: nat)
    requires ConfirmationGiven(i) && c.name in DISPATCHABLE_TOOLS && MAX_SAME_TOOL_CALLS > 0
    ensures var v := Supervisor(InitialState(i), Asking(c), map[], now, id);
      && v.event == Took(None) && v.slots == map[] && v.update.Some?
      && v.update.value.next == Some(ToTools) && v.update.value.toolCalls == Some(Some([c]))
  {
    assert Dispatchable([c]) == [c];
    assert IsFresh(c, []) && Fresh([c], []) == [c];
  }

  /** The opening is reached: a "yes" with no plan on record, to which the router answers with a delete,
      is logged as finding no plan and then as running the delete. */
  lemma UnshownDeleteRuns(t0: int, i: Intent, args: string, c: Composition) returns (actions: seq<Action>, w: World)
    requires ConfirmationGiven(i) && MAX_SAME_TOOL_CALLS > 0
    ensures After(t0, actions) == Some(w)
    ensures w.log == [NoPlan(0, ChatKey(i), t0), Executed(0, ChatKey(i), true, [Call("delete_calendar_event", args)])]
  {
    var del := Call("delete_calendar_event", args);
    var r := Then(t0, [], Start(t0), StartTurn(0, i));
    FirstVisitTakesNothing(i, del, t0, 0);
    var a := Go(0, Asking(del), c);
    r := Then(t0, r.0, r.1, a);
    assert r.1.log == [NoPlan(0, ChatKey(i), t0)];
    assert r.1.turns[0].pc == AtTools && r.1.turns[0].s.toolCalls == Some([del]);
    assert Dispatchable([del]) == [del];
    r := Then(t0, r.0, r.1, a);
    actions, w := r.0, r.1;
  }
}
